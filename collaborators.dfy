/**
 * The objects the facade wires together but whose code is not part of this
 * model: the HTTP client, the logger, the date builder, feeds, standards
 * (dialect adapters), parsers, formatters, the reader and the fixers.
 * Each is reduced to its identity and to the state the facade touches; the
 * reader and the fixer set record the calls they receive in ghost logs.
 */
module Collaborators {
  import opened Common

  /** The HTTP client handed to the reader. */
  class Client {
    constructor () { }
  }

  /** The PSR-3 logger shared by the reader, parsers, formatters and fixers. */
  class Logger {
    constructor () { }
  }

  /** The date/time builder shared by the built-in standards. */
  class DateTimeBuilder {
    constructor () { }
  }

  /** A feed; its metadata and items are filled in by parsers and fixers. */
  class Feed {
    constructor () { }
  }

  /** A point in time, as seconds since the epoch. */
  datatype DateTime = DateTime(timestamp: int)

  /** Which syndication dialect a standard implements. */
  datatype Dialect = Atom | Rss | OtherDialect(id: nat)

  /** A dialect adapter, built around a date/time builder. */
  class Standard {
    const dialect: Dialect
    const builder: DateTimeBuilder?

    constructor (dialect: Dialect, builder: DateTimeBuilder?)
      ensures this.dialect == dialect && this.builder == builder
    {
      this.dialect := dialect;
      this.builder := builder;
    }
  }

  /** A parser bound to one standard. */
  datatype Parser = Parser(standard: Standard, logger: Logger)

  /** The DOM document a formatter produces: `feed` written in `standard`'s dialect. */
  datatype Document = Document(standard: Standard, feed: Feed)

  /** A formatter bound to one standard. */
  datatype Formatter = Formatter(standard: Standard, logger: Logger) {
    function ToDom(feed: Feed): Document {
      Document(standard, feed)
    }
  }

  /** What a read returns: the feed read into, for a url and an optional date. */
  datatype ReadResult = ReadResult(feed: Feed, url: string, modifiedSince: Option<DateTime>)

  /** One call to the reader, with the result it gave or the exception it threw. */
  datatype ReadCall = ReadCall(url: string, feed: Feed, modifiedSince: Option<DateTime>, outcome: Result<ReadResult>)

  /** The reader: a list of parsers, one of which recognises each fetched document. */
  class Reader {
    const client: Client
    const logger: Logger
    var parsers: seq<Parser>
    ghost var calls: seq<ReadCall>

    constructor (client: Client, logger: Logger)
      ensures this.client == client && this.logger == logger
      ensures parsers == [] && calls == []
    {
      this.client := client;
      this.logger := logger;
      parsers := [];
      calls := [];
    }

    method AddParser(parser: Parser)
      modifies this
      ensures parsers == old(parsers) + [parser]
      ensures calls == old(calls)
    {
      parsers := parsers + [parser];
    }

    /**
     * Fetches `url` and parses it into `feed`, or throws; only the call and
     * its outcome are recorded. Which of the two happens is decided by the
     * network and the document, so either may.
     */
    method Read(url: string, feed: Feed, modifiedSince: Option<DateTime>) returns (r: Result<ReadResult>)
      modifies this
      ensures parsers == old(parsers)
      ensures calls == old(calls) + [ReadCall(url, feed, modifiedSince, r)]
    {
      if * {
        r := Err(ReaderFailure(url));
      } else {
        r := Ok(ReadResult(feed, url, modifiedSince));
      }
      calls := calls + [ReadCall(url, feed, modifiedSince, r)];
    }
  }

  /** The built-in fixers, and any other. */
  datatype FixerKind = LastModified | OtherFixer(id: nat)

  /** A correction rule applied to a freshly read feed. */
  class Fixer {
    const kind: FixerKind
    var logger: Logger?

    constructor (kind: FixerKind)
      ensures this.kind == kind && logger == null
    {
      this.kind := kind;
      logger := null;
    }

    method SetLogger(logger: Logger)
      modifies this
      ensures this.logger == logger
    {
      this.logger := logger;
    }
  }

  /** The ordered fixers, the feeds they have been asked to correct, and whether each correction threw. */
  class FixerSet {
    var fixers: seq<Fixer>
    ghost var corrected: seq<Feed>
    ghost var failures: seq<Option<Error>>

    constructor ()
      ensures fixers == [] && corrected == [] && failures == []
    {
      fixers := [];
      corrected := [];
      failures := [];
    }

    method Add(fixer: Fixer)
      modifies this
      ensures fixers == old(fixers) + [fixer]
      ensures corrected == old(corrected) && failures == old(failures)
    {
      fixers := fixers + [fixer];
    }

    /**
     * Runs every fixer on `feed`; only the call itself is recorded. A fixer
     * may throw, which ends the pass: `failure` is that exception.
     */
    method Correct(feed: Feed) returns (failure: Option<Error>)
      modifies this
      ensures fixers == old(fixers)
      ensures corrected == old(corrected) + [feed]
      ensures failures == old(failures) + [failure]
      ensures failure.Some? ==> failure.value == FixerFailure
    {
      if * {
        failure := Some(FixerFailure);
      } else {
        failure := None;
      }
      corrected := corrected + [feed];
      failures := failures + [failure];
    }
  }
}
