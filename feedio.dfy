/**
 * The feed-io facade: a case-insensitive table of standards (each also
 * wired into the reader as a parser), an ordered fixer set run after every
 * read, and the read and format entry points.
 */
module FeedIo {
  import opened Common
  import opened Ascii
  import opened Collaborators

  /**
   * The standard registered under `name`'s lower-case form, or the
   * OutOfBoundsException getStandard throws. `FeedIo.GetStandard` is this
   * lookup on the facade's own table; this form takes any table, so that
   * the lemmas below can speak of the table before and after a registration.
   */
  function Lookup(table: map<string, Standard>, name: string): Result<Standard> {
    var key := Lower(name);
    if key in table then Ok(table[key]) else Err(OutOfBounds("no standard found for " + key))
  }

  /** Names that differ only in case look up the same standard, or fail alike. */
  lemma LookupIgnoresCase(table: map<string, Standard>, m: string, n: string)
    requires SameIgnoringCase(m, n)
    ensures Lookup(table, m) == Lookup(table, n)
  {
    SameIgnoringCaseIffLowerEqual(m, n);
  }

  /** Registering `standard` under `name` answers every case variant of `name` with it and changes no other lookup. */
  lemma LookupAfterRegister(table: map<string, Standard>, name: string, standard: Standard, m: string)
    ensures Lookup(table[Lower(name) := standard], m) ==
            if SameIgnoringCase(m, name) then Ok(standard) else Lookup(table, m)
  {
    SameIgnoringCaseIffLowerEqual(m, name);
  }

  /** The table after registering each entry in turn, later entries overwriting earlier ones. */
  function Register(table: map<string, Standard>, entries: seq<(string, Standard)>): map<string, Standard> {
    if entries == [] then table
    else
      var last := entries[|entries| - 1];
      Register(table, entries[..|entries| - 1])[Lower(last.0) := last.1]
  }

  lemma RegisterPair(table: map<string, Standard>, first: (string, Standard), second: (string, Standard))
    ensures Register(table, [first, second]) == table[Lower(first.0) := first.1][Lower(second.0) := second.1]
  {
    assert [first, second][..1] == [first];
    assert [first][..0] == [];
    assert Register(table, [first]) == Register(table, [])[Lower(first.0) := first.1];
  }

  /**
   * What one read does, given the reader call it made and the fixer set's
   * logs before and after: the reader was asked for `url` into `fed` with
   * `modifiedSince`. When the reader threw, nothing was corrected and its
   * exception is the answer. Otherwise the result's feed was corrected
   * exactly once, and the answer is the exception that correction threw,
   * if it threw, and the reader's result if it did not.
   */
  ghost predicate ReadIsFixedAndReturned(before: seq<Feed>, after: seq<Feed>,
                                         failsBefore: seq<Option<Error>>, failsAfter: seq<Option<Error>>,
                                         call: ReadCall, url: string, fed: Feed,
                                         modifiedSince: Option<DateTime>, r: Result<ReadResult>)
  {
    && call.url == url && call.feed == fed && call.modifiedSince == modifiedSince
    && (call.outcome.Err? ==> after == before && failsAfter == failsBefore && r == call.outcome)
    && (call.outcome.Ok? ==>
          && after == before + [call.outcome.value.feed]
          && |failsAfter| == |failsBefore| + 1
          && failsAfter[..|failsBefore|] == failsBefore
          && r == (if failsAfter[|failsBefore|].Some? then Err(failsAfter[|failsBefore|].value) else call.outcome))
  }

  /** The parsers that registering `entries` adds to the reader, one per entry. */
  function ParsersFor(entries: seq<(string, Standard)>, logger: Logger): seq<Parser> {
    seq(|entries|, i requires 0 <= i < |entries| => Parser(entries[i].1, logger))
  }

  lemma ParsersForPrefix(entries: seq<(string, Standard)>, i: nat, logger: Logger)
    requires i < |entries|
    ensures ParsersFor(entries[..i + 1], logger) == ParsersFor(entries[..i], logger) + [Parser(entries[i].1, logger)]
  {
  }

  class FeedIo {
    const logger: Logger
    const dateTimeBuilder: DateTimeBuilder
    const reader: Reader
    var standards: map<string, Standard>
    var fixerSet: FixerSet?

    /** Keys are lower-case, and every registered standard can be parsed by the reader. */
    ghost predicate Registry()
      reads this, reader
    {
      && (forall key :: key in standards ==> IsLowered(key))
      && (forall key :: key in standards ==> Parser(standards[key], logger) in reader.parsers)
    }

    /** The facade once constructed: the common standards registered and a fixer set in place. */
    ghost predicate Valid()
      reads this, reader
    {
      Registry() && "atom" in standards && "rss" in standards && fixerSet != null
    }

    constructor (client: Client, logger: Logger)
      ensures Valid()
      ensures this.logger == logger && fresh(reader) && reader.client == client && reader.logger == logger
      ensures standards.Keys == {"atom", "rss"}
      ensures GetStandard("atom").Ok? && GetStandard("atom").value.dialect == Atom
      ensures GetStandard("rss").Ok? && GetStandard("rss").value.dialect == Rss
      ensures standards["atom"].builder == dateTimeBuilder && standards["rss"].builder == dateTimeBuilder
      ensures reader.parsers == [Parser(standards["atom"], logger), Parser(standards["rss"], logger)]
      ensures fresh(fixerSet) && |fixerSet.fixers| == 1
      ensures fixerSet.fixers[0].kind == LastModified && fixerSet.fixers[0].logger == logger
      ensures reader.calls == [] && fixerSet.corrected == [] && fixerSet.failures == []
    {
      this.logger := logger;
      dateTimeBuilder := new DateTimeBuilder();
      reader := new Reader(client, logger);
      standards := map[];
      fixerSet := null;
      new;
      var self := LoadCommonStandards();
      self := LoadFixerSet();
      LowerKeepsLowered("atom");
      LowerKeepsLowered("rss");
    }

    /** Registers the common standards under their names, in order. */
    method LoadCommonStandards() returns (r: FeedIo)
      requires Registry()
      modifies this`standards, reader
      ensures Registry() && r == this
      ensures standards.Keys == old(standards.Keys) + {"atom", "rss"}
      ensures forall key :: key in old(standards) && key != "atom" && key != "rss" ==> standards[key] == old(standards[key])
      ensures fresh(standards["atom"]) && standards["atom"].dialect == Atom && standards["atom"].builder == dateTimeBuilder
      ensures fresh(standards["rss"]) && standards["rss"].dialect == Rss && standards["rss"].builder == dateTimeBuilder
      ensures reader.parsers == old(reader.parsers) + [Parser(standards["atom"], logger), Parser(standards["rss"], logger)]
      ensures reader.calls == old(reader.calls)
    {
      var common := GetCommonStandards();
      r := this;
      for i := 0 to |common|
        invariant Registry() && r == this
        invariant standards == Register(old(standards), common[..i])
        invariant reader.parsers == old(reader.parsers) + ParsersFor(common[..i], logger)
        invariant reader.calls == old(reader.calls)
      {
        assert common[..i + 1][..i] == common[..i];
        ParsersForPrefix(common, i, logger);
        r := AddStandard(common[i].0, common[i].1);
      }
      assert common[..2] == common;
      assert ParsersFor(common, logger) == [Parser(common[0].1, logger), Parser(common[1].1, logger)];
      RegisterPair(old(standards), common[0], common[1]);
      LowerKeepsLowered("atom");
      LowerKeepsLowered("rss");
    }

    /** The standards every facade starts with: Atom and RSS, sharing the facade's date/time builder. */
    method GetCommonStandards() returns (r: seq<(string, Standard)>)
      ensures |r| == 2 && r[0].0 == "atom" && r[1].0 == "rss"
      ensures r[0].1.dialect == Atom && r[1].1.dialect == Rss
      ensures r[0].1.builder == dateTimeBuilder && r[1].1.builder == dateTimeBuilder
      ensures fresh(r[0].1) && fresh(r[1].1)
    {
      var atom := new Standard(Atom, dateTimeBuilder);
      var rss := new Standard(Rss, dateTimeBuilder);
      r := [("atom", atom), ("rss", rss)];
    }

    /**
     * Registers `standard` under the lower-case form of `name`, silently
     * replacing any standard already there, and gives the reader one more
     * parser for it.
     */
    method AddStandard(name: string, standard: Standard) returns (r: FeedIo)
      requires Registry()
      modifies this`standards, reader
      ensures Registry() && r == this
      ensures standards == old(standards)[Lower(name) := standard]
      ensures forall m :: GetStandard(m) == if SameIgnoringCase(m, name) then Ok(standard) else old(GetStandard(m))
      ensures reader.parsers == old(reader.parsers) + [Parser(standard, logger)]
      ensures reader.calls == old(reader.calls)
    {
      forall m
        ensures Lookup(standards[Lower(name) := standard], m) ==
                if SameIgnoringCase(m, name) then Ok(standard) else Lookup(standards, m)
      {
        LookupAfterRegister(standards, name, standard, m);
      }
      standards := standards[Lower(name) := standard];
      reader.AddParser(Parser(standard, logger));
      r := this;
    }

    /** Installs a fresh fixer set holding the base fixers, each given the facade's logger. */
    method LoadFixerSet() returns (r: FeedIo)
      modifies this`fixerSet
      ensures r == this && fixerSet != null && fresh(fixerSet)
      ensures |fixerSet.fixers| == 1 && fixerSet.fixers[0].kind == LastModified
      ensures fixerSet.fixers[0].logger == logger
      ensures fixerSet.corrected == [] && fixerSet.failures == []
    {
      fixerSet := new FixerSet();
      var fixers := GetBaseFixers();
      r := this;
      for i := 0 to |fixers|
        invariant r == this && fixerSet != null && fresh(fixerSet)
        invariant fixerSet.fixers == fixers[..i] && fixerSet.corrected == [] && fixerSet.failures == []
        invariant forall j :: 0 <= j < i ==> fixers[j].logger == logger
      {
        r := AddFixer(fixers[i]);
      }
      assert fixers[..1] == fixers;
    }

    /** Gives `fixer` the facade's logger and appends it to the fixer set, after the fixers already there. */
    method AddFixer(fixer: Fixer) returns (r: FeedIo)
      requires fixerSet != null
      modifies fixerSet, fixer
      ensures r == this && fixer.logger == logger
      ensures fixerSet.fixers == old(fixerSet.fixers) + [fixer]
      ensures fixerSet.corrected == old(fixerSet.corrected) && fixerSet.failures == old(fixerSet.failures)
    {
      fixer.SetLogger(logger);
      fixerSet.Add(fixer);
      r := this;
    }

    /** The fixers every facade starts with: one LastModified fixer. */
    method GetBaseFixers() returns (r: seq<Fixer>)
      ensures |r| == 1 && r[0].kind == LastModified && fresh(r[0])
    {
      var lastModified := new Fixer(LastModified);
      r := [lastModified];
    }

    /**
     * Reads `url` into `feed`, or into a new feed when none is given, then
     * runs the fixer set once on the feed of the reader's result and
     * returns that result as it is. An exception from the reader skips the
     * correction; an exception from the reader or from a fixer reaches the
     * caller unchanged. `fed` is the feed handed to the reader.
     */
    method Read(url: string, feed: Feed?, modifiedSince: Option<DateTime>) returns (r: Result<ReadResult>, ghost fed: Feed)
      requires Valid()
      modifies reader, fixerSet
      ensures Valid()
      ensures feed != null ==> fed == feed
      ensures feed == null ==> fresh(fed)
      ensures |reader.calls| == |old(reader.calls)| + 1
      ensures reader.calls[..|old(reader.calls)|] == old(reader.calls)
      ensures ReadIsFixedAndReturned(old(fixerSet.corrected), fixerSet.corrected,
                                     old(fixerSet.failures), fixerSet.failures,
                                     reader.calls[|old(reader.calls)|], url, fed, modifiedSince, r)
      ensures reader.parsers == old(reader.parsers)
      ensures fixerSet.fixers == old(fixerSet.fixers)
    {
      var into: Feed;
      if feed == null {
        into := new Feed();
      } else {
        into := feed;
      }
      fed := into;
      var outcome := reader.Read(url, into, modifiedSince);
      if outcome.Err? {
        return outcome, fed;
      }
      var failure := fixerSet.Correct(outcome.value.feed);
      if failure.Some? {
        return Err(failure.value), fed;
      }
      r := outcome;
    }

    /** Reads `url` into a new feed, asking only for content modified since `modifiedSince`. */
    method ReadSince(url: string, modifiedSince: DateTime) returns (r: Result<ReadResult>, ghost fed: Feed)
      requires Valid()
      modifies reader, fixerSet
      ensures Valid()
      ensures fresh(fed)
      ensures |reader.calls| == |old(reader.calls)| + 1
      ensures reader.calls[..|old(reader.calls)|] == old(reader.calls)
      ensures ReadIsFixedAndReturned(old(fixerSet.corrected), fixerSet.corrected,
                                     old(fixerSet.failures), fixerSet.failures,
                                     reader.calls[|old(reader.calls)|], url, fed, Some(modifiedSince), r)
      ensures reader.parsers == old(reader.parsers)
      ensures fixerSet.fixers == old(fixerSet.fixers)
    {
      var feed := new Feed();
      r, fed := Read(url, feed, Some(modifiedSince));
    }

    /** Writes `feed` in the dialect of the standard named `standard`, or throws as getStandard does. */
    function Format(feed: Feed, standard: string): (r: Result<Document>)
      reads this
      ensures r.Err? <==> Lower(standard) !in standards
      ensures r.Err? ==> r.error == GetStandard(standard).error
      ensures r.Ok? ==> r.value.standard == standards[Lower(standard)] && r.value.feed == feed
    {
      match GetStandard(standard)
      case Err(e) => Err(e)
      case Ok(s) => Ok(Formatter(s, logger).ToDom(feed))
    }

    /** `feed` written as RSS: format with the fixed name "rss". */
    function ToRss(feed: Feed): (r: Result<Document>)
      reads this
      ensures r.Ok? <==> "rss" in standards
      ensures r.Ok? ==> r.value == Document(standards["rss"], feed)
      ensures r.Err? ==> r.error == OutOfBounds("no standard found for rss")
    {
      LowerKeepsLowered("rss");
      Format(feed, "rss")
    }

    /** `feed` written as Atom: format with the fixed name "atom". */
    function ToAtom(feed: Feed): (r: Result<Document>)
      reads this
      ensures r.Ok? <==> "atom" in standards
      ensures r.Ok? ==> r.value == Document(standards["atom"], feed)
      ensures r.Err? ==> r.error == OutOfBounds("no standard found for atom")
    {
      LowerKeepsLowered("atom");
      Format(feed, "atom")
    }

    /**
     * The standard registered under `name`, compared case-insensitively;
     * OutOfBoundsException when there is none.
     */
    function GetStandard(name: string): (r: Result<Standard>)
      reads this
      ensures r.Ok? <==> Lower(name) in standards
      ensures r.Ok? ==> r.value == standards[Lower(name)]
      ensures r.Err? ==> r.error == OutOfBounds("no standard found for " + Lower(name))
    {
      Lookup(standards, name)
    }

    /** Case variants of one name resolve alike. */
    lemma GetStandardIgnoresCase(feed: Feed, m: string, n: string)
      requires SameIgnoringCase(m, n)
      ensures GetStandard(m) == GetStandard(n)
      ensures Format(feed, m) == Format(feed, n)
    {
      LookupIgnoresCase(standards, m, n);
    }

    /** Every registered key resolves to its own standard. */
    lemma EveryKeyResolves(key: string)
      requires Registry() && key in standards
      ensures GetStandard(key) == Ok(standards[key])
    {
      LowerKeepsLowered(key);
    }

    /** The common standards can always be written, whatever was registered since. */
    lemma CommonFormatsResolve(feed: Feed)
      requires Valid()
      ensures ToRss(feed).Ok? && ToAtom(feed).Ok?
    {
      LowerKeepsLowered("rss");
      LowerKeepsLowered("atom");
    }
  }
}
