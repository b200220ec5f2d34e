# Budget execution: source catalog and utility layer

This project is a Dafny model of two leaf components of a budget-execution
application.

- **The source-category catalog** (`src/Resource.cs`, module `Resource` in
  `resource.dfy`). It has eight fixed, ordered tables of data-source
  identifiers: division, appropriation, object-class, reference, allocation,
  authority, supplemental and outlay sources.
  - Each table is a `const seq<Source>` copied in source order, repeated
    entries included.
  - Lemmas state the tables' sizes, their repeated entries and where those
    entries sit. They also cover the division block that ends the allocation
    table and how the categories overlap without nesting.
  - The one-time reads of the display and image-path settings are modelled as
    lookups into a settings map.
- **The utility layer** (`src/Static.cs`, module `Static` in `static.dfy`).
  It has four self-contained operations:
  - `GetSqlType` unwraps a nullable type and maps the type name through a
    fixed, lossy table.
  - `CreateCommand` checks the connection, binds the SQL text to a fresh
    command and validates that text.
  - `ToLogString` builds an exception report in a string accumulator. It
    walks the inner-exception chain and the exception's Data entries.
  - `ToDictionary` copies a name/value collection into a fresh dictionary.

Every utility catches any exception, hands it to `Fail` (an error dialog) and
returns null. The model renders that in three ways:

- `GetSqlType` and `ToDictionary` return an `Option`, where `None` stands
  for null.
- `CreateCommand` returns a `Command?`, where `null` stands for null.
- `ToLogString` returns a plain string, because nothing it calls in the model
  can throw.

`GetSqlType`, `CreateCommand` and `ToDictionary` also thread a ghost log of the failures handed to `Fail`:
`reported` in, `reported'` out. `ToLogString` threads no log.

`ToLogString` is proved equal to a pure specification, `LogString`. Lemmas
then state that specification's section order, its start and its end.
`ToDictionary` is proved against the collection's keys and indexer. Its error
case names the first key `Dictionary.Add` rejects.

`wrappers.dfy` holds the `Option` type shared by both modules.

The model follows the code as written. In particular:

- A missing settings key reads as null (`None`), not as an empty string.
- The `Databases` field reads the key `"Database"`, not `"DatabaseImages"`.
- Each `Data :` line appends the enumerated `DictionaryEntry` object (its
  text), not the entry's value alone.
- The `BaseException:` part is always written for a non-null exception.

## Model

| member | source | states |
|---|---|---|
| Resource.TableSizes | src/Resource.cs:144-376 | the eight tables hold 14, 14, 9, 25, 44, 49, 4 and 17 entries, in declaration order; none is empty |
| Resource.AllocationKeepsRepeatedContracts | src/Resource.cs:239-285 | Contracts occurs exactly twice in the allocation table: the repeated entry is kept |
| Resource.AllocationContractsPositions | src/Resource.cs:250-255 | the allocation table holds Contracts at positions 9 and 14 and at no other position |
| Resource.AuthorityKeepsRepeatedContracts | src/Resource.cs:290-341 | Contracts occurs exactly twice in the authority table |
| Resource.AuthorityContractsPositions | src/Resource.cs:301-306 | the authority table holds Contracts at positions 9 and 14 and at no other position |
| Resource.AuthorityKeepsRepeatedTransfers | src/Resource.cs:290-341 | Transfers occurs exactly twice in the authority table |
| Resource.AuthorityTransfersPositions | src/Resource.cs:294-340 | the authority table holds Transfers at positions 2 and 48 and at no other position |
| Resource.AllocationEndsWithDivisions | src/Resource.cs:271-284 | the last 14 allocation entries (from index 30) equal the division table element for element, in order |
| Resource.DivisionsDistinct | src/Resource.cs:146-159 | no two positions of the division table hold the same identifier |
| Resource.DivisionsListedOnce | src/Resource.cs:146-159 | each identifier occurs in the division table once if it is listed and never otherwise |
| Resource.DivisionsAreNotOutlays | src/Resource.cs:357-376 | no division identifier is in the outlay table |
| Resource.CategoriesOverlap | src/Resource.cs:186-376 | Contracts is both an object class and an allocation source; DivisionExecution is an outlay, allocation and authority source |
| Resource.CategoriesNotNested | src/Resource.cs:186-352 | NonSiteTravel is an object class and an authority source but not an allocation source; Awards, TimeOff and Overtime are both supplemental and allocation sources |
| Resource.SupplementalOnlyInSupplementalSources | src/Resource.cs:346-352 | Supplemental is in the supplemental table and in none of the other seven |
| Resource.ReadSettingReadsOnlyItsKey | src/Resource.cs:40-135 | a field's value depends only on the entry under its own key: two settings stores that agree on that key give the same value, or both give null |
| Resource.DatabaseImagesIsNotRead | src/Resource.cs:50 | an entry under "DatabaseImages" changes no field, Databases included, because Databases reads "Database" |
| Resource.SettingKeysDistinct | src/Resource.cs:40-135 | different fields read different keys; Databases reads "Database" |
| Static.SqlName | src/Static.cs:45-62 | the result is either the name itself or one of the four column types Text, Date, Double and Currency, and only String, Boolean, DateTime, Int32 and Decimal are changed |
| Static.SqlNameTable | src/Static.cs:47-61 | String and Boolean give Text, DateTime gives Date, Int32 gives Double, Decimal gives Currency; every other name is returned as is |
| Static.SqlNameLossyAndIdempotent | src/Static.cs:47-49 | two names share one column type, and mapping an already mapped name changes nothing |
| Static.GetSqlType | src/Static.cs:39-69 | a nullable type maps like its underlying type (Int32? and Int32 both give Double); a plain type maps by its name; a null type reports ArgumentNullException("nullableType") and gives null |
| Static.CreateCommand | src/Static.cs:78-99 | a null connection reports ArgumentNullException("connection") and gives null; otherwise nothing is reported, and a fresh command bound to the connection with text `sql` is returned exactly when the text passes the shared check |
| Static.Chain | src/Static.cs:145-150 | the chain starts with the exception, each element's inner exception is the next one, and the last has none |
| Static.ChainIsTheInnerWalk | src/Static.cs:145-150 | any such walk along InnerException from the exception is the chain: the loop visits exactly these exceptions |
| Static.BaseException | src/Static.cs:186-192 | the base exception has no inner exception, and it is the exception itself when that has no inner exception |
| Static.BaseExceptionEndsChain | src/Static.cs:186-192 | the base exception is the last exception of the inner-exception chain |
| Static.ToLogString | src/Static.cs:127-203 | the accumulated report equals the specification LogString, for every message, with or without an exception |
| Static.LogStringShape | src/Static.cs:131-196 | the report starts with message and separator when the message passes the check; with no exception that heading is all, so an unchecked message gives ""; with an exception "Exception:" follows the heading and "BaseException:", a separator and the base exception's text end it, with no separator after |
| Static.ChainMessagesOutermostFirst | src/Static.cs:145-150 | the outermost exception's message line comes first, then the lines of its inner exception's chain |
| Static.ThreeMessagesInOrder | src/Static.cs:145-150 | an exception with two nested inner exceptions yields its three messages, one per line, outermost first |
| Static.WithReportStart | src/Static.cs:141-143 | the exception part begins with "Exception:" and a separator right after the heading |
| Static.WithReportEnd | src/Static.cs:186-193 | the exception part ends with "BaseException:", a separator and the base exception's text, and that part is present even without an inner exception |
| Static.WithDetailsExtends | src/Static.cs:145-184 | the message, Data, StackTrace, Source and TargetSite parts only append to the text so far |
| Static.FirstRejected | src/Static.cs:218-220 | the first key that Dictionary.Add rejects: every earlier key is accepted |
| Static.ToDictionary | src/Static.cs:210-231 | a null collection gives an empty dictionary; if every key is accepted, the keys are exactly AllKeys and each value is the collection's value for that key; otherwise the first null or repeated key is reported and null is returned |
| Static.AllAddableIffDistinct | src/Static.cs:218-220 | every key is accepted in turn iff no key is null and no key repeats |
| Static.DictionaryValuesAreEntryValues | src/Static.cs:218-220 | when every key is accepted, the value under each entry's key is that entry's own value |
| Static.LookupFindsEntry | src/Static.cs:220 | the collection's indexer returns the value of an entry whose key no earlier entry has |

## Left out

- `ExecuteNonQuery` (src/Static.cs:107-119) runs SQL against a live database. Only its catch-and-return-0 shape is visible, so it is not modelled.
- `Fail` (src/Static.cs:237-242) shows a modal error dialog. It is modelled only as the ghost failure log; the dialog is UI.
- The `Enum.GetNames` lists (src/Resource.cs:202, 381-421) are not modelled. The enum declarations are not part of this model, and the lists' order comes from reflection.
- `ConfigurationManager.AppSettings` is an external store. It is a parameter, a `map<string, string>`, of `ReadSetting`. The map stands for the store as its indexer sees it: keys already matched case-insensitively, and several values under one key already joined. So `ReadSettingReadsOnlyItsKey` speaks of that view, not of the raw entries.
- Resource.ReadSetting: it is the plain lookup the settings indexer reduces to, so its own contract only spells out that lookup. Its properties are stated by `ReadSettingReadsOnlyItsKey` and `DatabaseImagesIsNotRead`.
- `Verify.Input`, `Environment.NewLine` and the text `StringBuilder.Append` writes for a `DictionaryEntry` and for an exception object are not part of this model. They are fields of the `Host` parameter and are left uninterpreted.
- The text `StringBuilder.Append` writes for a `TargetSite` is not part of this model either. It is carried as the `targetSite` field of the `Exception` datatype.
- Null strings (a null `sql` or `message`, a null exception message) are not modelled; every string is a value.
- Static.ToLogString: its catch path is not modelled, because nothing the model calls can throw.
- Static.BaseException: the model takes `Exception`'s own `GetBaseException`, which walks the InnerException chain to its end. Overrides of that virtual method are not modelled: `AggregateException`'s stops at an aggregate with more than one inner exception and returns the aggregate itself. The `Exception` datatype has no subtypes to carry such an override.
- Static.ToDictionary: the collection is a plain ordered list of keys and values. The collection's case-insensitive key comparison and its joining of several values under one key are not modelled, so the model admits repeated keys that such a collection would have merged.
- Static.CreateCommand: a provider whose `IDbConnection.CreateCommand()` throws or returns null is not modelled. In the source both reach the catch and are reported; a null command throws when its text is set. The model's connection always returns a fresh command, so only a null connection is ever reported.
- Static.CreateCommand: `using`/dispose timing is not modelled, nor the command left undisposed when its text fails the check.
- Resource.AllocationSources and Resource.AuthoritySources are each written as two sequence displays joined end to end. The order and content are the source's; only the layout differs.
