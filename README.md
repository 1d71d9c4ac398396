# feed-io facade and item elements, in Dafny

This project models two pieces of the feed-io PHP library.

The `FeedIo` facade (`src/FeedIo/FeedIo.php`) holds three pieces of state:
- a table from lower-cased standard names to standards (the Atom and RSS dialect adapters, and any the caller adds);
- the reader's list of parsers, which grows by one per registration;
- an ordered fixer set that runs after every read.

It resolves standards case-insensitively for formatting. A read delegates to the reader and then runs the fixer set on the feed the reader returns.

`ItemInterface` (`src/FeedIo/Feed/ItemInterface.php`) is the contract of an item's optional elements: named, possibly repeated elements kept in insertion order and reached by name.

Files:
- `common.dfy`: `Option`, `Result` and the `OutOfBounds` error (PHP's `OutOfBoundsException` with its message).
- `ascii.dfy`: `strtolower` as ASCII lower-casing, and the case-insensitive name equivalence.
- `collaborators.dfy`: the objects the facade wires together but whose code is not modelled. These are the client, logger, date/time builder, feed, standard, parser, formatter, reader, fixer and fixer set. The reader records each read with its outcome, and the fixer set each correction with whether it threw, in ghost logs. Their method bodies are stand-ins: only the calls and whether they threw are modelled.
- `feedio.dfy`: the facade as a class `FeedIo.FeedIo` with the fields `standards: map<string, Standard>`, `reader` (holding `parsers: seq<Parser>`) and `fixerSet` (holding `fixers: seq<Fixer>`). It also holds pure lemmas about the lookup table.
- `items.dfy`: the item as a class `Items.Item` over `elements: seq<Element>`. Queries are functions of that sequence. `Set` and `AddElement` are methods that change it.

The object invariant `FeedIo.FeedIo.Valid` says four things:
- every key is lower-case;
- every registered standard has a parser in the reader;
- `atom` and `rss` are registered;
- the fixer set exists.

`fixerSet` is nullable because the PHP class assigns it only in `loadFixerSet`, during construction.

The interface leaves three points open; the model settles them as follows:
- `listElements` is documented only as returning the tag names of the item's optional elements, as an array. The model reads that as one name per element, in insertion order, and proves that a name is listed exactly when the item has an element of that name.
- `getValue` does not say which element it reads when a name repeats. `Items.Item.GetValue` reads the first one, but its contract promises only that a value is returned exactly when an element of that name exists, and that it is the value of one such element.
- `set` does not say whether a name that already occurs has an element overwritten or gets another one appended. `Items.Item.Set` allows either through a nondeterministic choice, and its contract states only what holds both ways.

## Model

| member | source | states |
|---|---|---|
| `Ascii.LowerChar` | src/FeedIo/FeedIo.php:94 | one character of strtolower: the result is never an ASCII capital; non-capitals are kept; capitals move to their lower-case letter |
| `Ascii.Lower` | src/FeedIo/FeedIo.php:94 | strtolower keeps the length, lower-cases each character in place, and yields a string with no ASCII capital |
| `Ascii.SameIgnoringCaseIffLowerEqual` | src/FeedIo/FeedIo.php:235 | two names lower-case to the same key exactly when they differ only in the case of ASCII letters (both directions) |
| `Ascii.LowerKeepsLowered` | src/FeedIo/FeedIo.php:235 | a name with no capitals is its own key |
| `Ascii.LowerIdempotent` | src/FeedIo/FeedIo.php:94 | lower-casing a key again changes nothing |
| `FeedIo.LookupIgnoresCase` | src/FeedIo/FeedIo.php:233-240 | case variants of a name get the same standard, or the same OutOfBoundsException, from any table |
| `FeedIo.LookupAfterRegister` | src/FeedIo/FeedIo.php:92-95 | after storing a standard under lower(name), every case variant of name finds that standard, overwriting silently; every other name's lookup is unchanged |
| `FeedIo.RegisterPair` | src/FeedIo/FeedIo.php:66-74 | registering two entries in turn stores both, the second overwriting the first when their keys coincide |
| `FeedIo.ParsersForPrefix` | src/FeedIo/FeedIo.php:96-98 | each registration contributes exactly one parser, built from its standard, after those of the earlier ones |
| `FeedIo.FeedIo.constructor` | src/FeedIo/FeedIo.php:54-61 | a new facade is valid and its reader is fresh. Exactly `atom` (Atom) and `rss` (RSS) are registered, both built on the facade's date/time builder, with one parser each in that order. The fixer set is fresh and holds one LastModified fixer carrying the facade's logger. Nothing has been read or corrected |
| `FeedIo.FeedIo.LoadCommonStandards` | src/FeedIo/FeedIo.php:66-74 | registers the common standards in order: adds the keys `atom` and `rss` with fresh Atom and RSS standards, keeps every other key, and appends their two parsers |
| `FeedIo.FeedIo.GetCommonStandards` | src/FeedIo/FeedIo.php:79-85 | returns, in order, `atom` with a new Atom standard and `rss` with a new RSS standard, both on the facade's date/time builder |
| `FeedIo.FeedIo.AddStandard` | src/FeedIo/FeedIo.php:92-101 | stores the standard under lower(name), overwriting any previous one. Afterwards getStandard answers every case variant with it and every other name as before. The reader gains exactly one parser for that standard, even on an overwrite. The registry invariant is kept and the same facade is returned |
| `FeedIo.FeedIo.LoadFixerSet` | src/FeedIo/FeedIo.php:106-116 | installs a fresh fixer set holding exactly the base LastModified fixer, with the facade's logger set on it |
| `FeedIo.FeedIo.AddFixer` | src/FeedIo/FeedIo.php:121-127 | sets the facade's logger on the fixer and appends the fixer after the existing ones, in order; returns the same facade |
| `FeedIo.FeedIo.GetBaseFixers` | src/FeedIo/FeedIo.php:132-137 | returns one new LastModified fixer |
| `FeedIo.FeedIo.Read` | src/FeedIo/FeedIo.php:172-184 | hands the reader the given feed, or a fresh one when none is given, and calls the reader exactly once with (url, that feed, modifiedSince). If the reader throws, nothing is corrected and its exception reaches the caller. Otherwise the fixer set corrects the feed of the reader's result exactly once; if that correction threw, its exception reaches the caller, and if not, the reader's result is returned unchanged. Standards, parsers and fixers are unchanged |
| `FeedIo.FeedIo.ReadSince` | src/FeedIo/FeedIo.php:191-194 | the same as Read with a fresh feed and the given date: one reader call with a fresh feed and Some(date); a reader exception is passed on with no correction, otherwise one correction of the result's feed, then the fixer's exception if the correction threw and the reader's result unchanged if it did not |
| `FeedIo.FeedIo.Format` | src/FeedIo/FeedIo.php:201-208 | throws exactly when lower(name) is not registered, with getStandard's exception. Otherwise it returns the document of the given feed built by the formatter of the registered standard |
| `FeedIo.FeedIo.ToRss` | src/FeedIo/FeedIo.php:214-217 | succeeds exactly when the key `rss` is registered, giving the feed's document under that standard; otherwise throws OutOfBoundsException("no standard found for rss") |
| `FeedIo.FeedIo.ToAtom` | src/FeedIo/FeedIo.php:223-226 | succeeds exactly when the key `atom` is registered, giving the feed's document under that standard; otherwise throws OutOfBoundsException("no standard found for atom") |
| `FeedIo.FeedIo.GetStandard` | src/FeedIo/FeedIo.php:233-241 | succeeds exactly when lower(name) is a key, returning that key's standard. Otherwise it fails with OutOfBoundsException("no standard found for " + lower(name)) |
| `FeedIo.FeedIo.GetStandardIgnoresCase` | src/FeedIo/FeedIo.php:233-237 | names that differ only in case give the same getStandard and format outcomes |
| `FeedIo.FeedIo.EveryKeyResolves` | src/FeedIo/FeedIo.php:233-237 | in a valid registry, every stored key resolves to its own standard |
| `FeedIo.FeedIo.CommonFormatsResolve` | src/FeedIo/FeedIo.php:214-226 | on a constructed facade, toRss and toAtom always succeed, whatever was registered since |
| `Items.ElementsNamed` | src/FeedIo/Feed/ItemInterface.php:43-47 | selects the elements with the given name: an element is selected iff it is in the collection and has that name; never longer than the collection |
| `Items.ElementsNamedAppend` | src/FeedIo/Feed/ItemInterface.php:43-47 | selection by name distributes over concatenation, so the selected elements keep insertion order |
| `Items.ElementsNamedUpdate` | src/FeedIo/Feed/ItemInterface.php:36-41 | rewriting one element without renaming it leaves every other name's selection unchanged |
| `Items.NamesOf` | src/FeedIo/Feed/ItemInterface.php:67-71 | one tag name per element, in the elements' order |
| `Items.NamesOfListsPresentNames` | src/FeedIo/Feed/ItemInterface.php:61-71 | a name is among the tag names iff some element carries it (both directions) |
| `Items.AppendNamed` | src/FeedIo/Feed/ItemInterface.php:36-41 | appending a new element for (name, value) makes it present and leaves every other name's selection unchanged |
| `Items.CategoryExample` | src/FeedIo/Feed/ItemInterface.php:43-47 | on [category=a, author=x, category=b], selecting "category" yields [a, b] in that order and "missing" yields the empty sequence |
| `Items.Item.NewElement` | src/FeedIo/Feed/ItemInterface.php:25-28 | returns a blank element (no name, no value, no attributes) without changing the item |
| `Items.Item.GetValue` | src/FeedIo/Feed/ItemInterface.php:30-34 | gives a value exactly when the item has an element of that name, and that value belongs to one such element |
| `Items.Item.Set` | src/FeedIo/Feed/ItemInterface.php:36-41 | returns the same item. The new collection is either the old one with a new element (name, value) appended, or the old one with exactly one element of that name given the new value in place; every other element keeps its position and contents. Either way an element with that name and value exists, and every other name's elements are as before, in order |
| `Items.Item.GetElementIterator` | src/FeedIo/Feed/ItemInterface.php:43-47 | yields exactly the item's elements with that name, nothing else; empty when none match |
| `Items.Item.HasElement` | src/FeedIo/Feed/ItemInterface.php:49-53 | true exactly when some optional element has that name |
| `Items.Item.AddElement` | src/FeedIo/Feed/ItemInterface.php:55-59 | appends the element whatever its name and returns the same item. Afterwards the element is among getAllElements, hasElement holds for its name, and the iterator for that name yields the old matches followed by it |
| `Items.Item.GetAllElements` | src/FeedIo/Feed/ItemInterface.php:61-65 | yields every optional element, in insertion order |
| `Items.Item.ListElements` | src/FeedIo/Feed/ItemInterface.php:67-71 | one tag name per element of getAllElements, in the same order; a name is listed iff hasElement holds for it |

## Left out

- Logging (`logAction` and the logger's `debug` calls) is not modelled. `read` and `format` build the log message by putting the URL or the standard name into the `sprintf` format string (src/FeedIo/FeedIo.php:178, 203 and 251). On PHP 8, a `%` sequence in them, such as a percent-encoded URL, can make `sprintf` throw before the reader or `getStandard` runs. `FeedIo.FeedIo.Read`, `FeedIo.FeedIo.ReadSince` and `FeedIo.FeedIo.Format` do not model that failure: they always reach the reader or the lookup.
- Network fetching, the reader's parser selection and the conditional-fetch meaning of `modifiedSince` are not modelled. `Reader.Read` only records its call and either returns a result over the feed it was handed or throws; which exception it throws is not modelled beyond one `ReaderFailure`.
- `FixerSet.Correct` may throw; which fixer threw, and what the fixers before it had already changed, is not modelled.
- `FixerSet::correct` and the LastModified fixer's date logic are not modelled. The model records only that correct is called once on the result's feed. The feed's contents (metadata and items) are therefore not modelled either.
- The Atom and RSS rules, `Parser`, `Formatter::toDom` and the DOM output are not modelled. A standard is an object with a dialect tag. A formatted document is a value naming the standard and the feed.
- `strtolower` is modelled for ASCII only; locale-dependent lower-casing of other characters is not modelled.
- `setReader`, `getReader` and `getDateTimeBuilder` are plain accessors outside the modelled core. The reader is fixed at construction.
- The mandatory fields of an item and their accessors are declared in `NodeInterface`, which is not part of this model. `set` and `getValue` are modelled for non-mandatory names only.
- No concrete item implementation is modelled. The interface's contract is all there is.
- Items.Item.Set: does not state which element is overwritten, or whether one is, when the name already occurs, because the interface leaves that open.
- Items.Item.GetValue: does not promise the first matching element, because the interface does not say which element is read.
- Items.Item.NewElement: the interface says only that an element is returned; the blank element is the model's choice.
- Elements are values (`Items.Element`), not `ElementInterface` objects. Changes a caller makes to an element through a reference it keeps (from `newElement`, `getElementIterator` or `getAllElements`, or after `addElement`) are therefore not modelled; an item's elements change only through `Set` and `AddElement`.
- Parsers, formatters and documents are values here, so object identity for them is not modelled. Standards, fixers and feeds keep their identity as objects.
