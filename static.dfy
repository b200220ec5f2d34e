/**
 * The utility layer of the budget-execution application (src/Static.cs):
 * type-name mapping for the query engine, command construction with
 * validation, an exception report for logging, and the copy of a
 * name/value collection into a dictionary.
 *
 * Every operation in the source catches any exception, hands it to Fail
 * (which shows an error dialog) and returns the default value (null). Here
 * GetSqlType and ToDictionary return an Option (None for null), and
 * CreateCommand returns a Command? (null for null). These three thread a
 * ghost log of the failures handed to Fail: `reported` before the call,
 * `reported'` after it. ToLogString returns a plain string and threads no
 * log, since nothing it calls in the model can throw.
 */
module Static {
  import opened Wrappers

  /** An exception that the source hands to Fail. */
  datatype Error =
    | ArgumentNull(paramName: string)  // ArgumentNullException
    | DuplicateKey(key: string)        // ArgumentException from Dictionary.Add

  /**
   * What the utilities take from code outside this model: the line separator
   * (Environment.NewLine), the shared "meaningful text" check (Verify.Input),
   * and the text that StringBuilder.Append writes for a data entry and for an
   * exception object (their ToString).
   */
  datatype Host = Host(
    newLine: string,
    input: string -> bool,
    entryText: DataEntry -> string,
    exceptionText: Exception -> string)

  // ---------------------------------------------------------------------------
  // GetSqlType (src/Static.cs:39-69)
  // ---------------------------------------------------------------------------

  /** A host type as GetSqlType sees it: null, a plain type, or Nullable<T> of a type named `underlying`. */
  datatype HostType = NullType | Plain(name: string) | NullableOf(underlying: string)

  /**
   * The switch on the type name (src/Static.cs:45-62): five names map to a
   * column type, and every other name comes back unchanged.
   */
  function SqlName(typeName: string): (r: string)
    ensures r == typeName || r in {"Text", "Date", "Double", "Currency"}
    ensures r != typeName ==> typeName in {"String", "Boolean", "DateTime", "Int32", "Decimal"}
  {
    match typeName
    case "String" => "Text"
    case "Boolean" => "Text"
    case "DateTime" => "Date"
    case "Int32" => "Double"
    case "Decimal" => "Currency"
    case _ => typeName
  }

  /**
   * GetSqlType: unwrap a nullable type to its underlying type, then map the
   * name. A null type makes Nullable.GetUnderlyingType throw
   * ArgumentNullException("nullableType"), which is reported, and null is returned.
   */
  method GetSqlType(t: HostType, ghost reported: seq<Error>)
    returns (r: Option<string>, ghost reported': seq<Error>)
    ensures t.NullType? ==> r == None
    ensures t.Plain? ==> r == Some(SqlName(t.name))
    ensures t.NullableOf? ==> r == Some(SqlName(t.underlying))
    ensures reported' == if t.NullType? then reported + [ArgumentNull("nullableType")] else reported
  {
    if t.NullType? {
      r, reported' := None, reported + [ArgumentNull("nullableType")];
      return;
    }
    var u := if t.NullableOf? then Plain(t.underlying) else t;
    r, reported' := Some(SqlName(u.name)), reported;
  }

  /** The table's entries, and every other name comes back unchanged. */
  lemma SqlNameTable(typeName: string)
    ensures SqlName("String") == "Text" && SqlName("Boolean") == "Text"
    ensures SqlName("DateTime") == "Date" && SqlName("Int32") == "Double"
    ensures SqlName("Decimal") == "Currency"
    ensures typeName !in {"String", "Boolean", "DateTime", "Int32", "Decimal"} ==> SqlName(typeName) == typeName
  {
  }

  /** The mapping is lossy (two names give "Text") and mapping twice changes nothing more. */
  lemma SqlNameLossyAndIdempotent(typeName: string)
    ensures SqlName("String") == SqlName("Boolean")
    ensures SqlName(SqlName(typeName)) == SqlName(typeName)
  {
  }

  // ---------------------------------------------------------------------------
  // CreateCommand (src/Static.cs:78-99)
  // ---------------------------------------------------------------------------

  /** A command object of the data-access layer; CommandText is settable. */
  class Command {
    const Connection: Connection
    var CommandText: string

    constructor (connection: Connection)
      ensures Connection == connection && CommandText == ""
    {
      Connection := connection;
      CommandText := "";
    }
  }

  /** A connection of the data-access layer; it creates commands bound to itself. */
  class Connection {
    constructor ()
    {
    }

    method CreateCommand() returns (c: Command)
      ensures fresh(c) && c.Connection == this && c.CommandText == ""
    {
      c := new Command(this);
    }
  }

  /**
   * CreateCommand: a null connection throws ArgumentNullException("connection"),
   * which is reported. Otherwise a fresh command bound to the connection gets
   * `sql` as its text, and it is returned exactly when that text passes the
   * shared check; otherwise null is returned and nothing is reported.
   */
  method CreateCommand(host: Host, connection: Connection?, sql: string, ghost reported: seq<Error>)
    returns (r: Command?, ghost reported': seq<Error>)
    ensures connection == null ==> r == null && reported' == reported + [ArgumentNull("connection")]
    ensures connection != null ==> reported' == reported && (r != null <==> host.input(sql))
    ensures r != null ==> fresh(r) && r.Connection == connection && r.CommandText == sql
  {
    if connection == null {
      r, reported' := null, reported + [ArgumentNull("connection")];
      return;
    }
    var command := connection.CreateCommand();
    command.CommandText := sql;
    r := if host.input(command.CommandText) then command else null;
    reported' := reported;
  }

  // ---------------------------------------------------------------------------
  // ToLogString (src/Static.cs:127-203)
  // ---------------------------------------------------------------------------

  /** One entry of an exception's Data dictionary. */
  datatype DataEntry = DataEntry(key: string, value: string)

  /**
   * The parts of an exception that the report reads. `inner` is
   * InnerException; `data`, `stackTrace`, `source` and `targetSite` are None
   * where the property is null (targetSite holds the text Append writes for it).
   */
  datatype Exception = Exception(
    message: string,
    inner: Option<Exception>,
    data: Option<seq<DataEntry>>,
    stackTrace: Option<string>,
    source: Option<string>,
    targetSite: Option<string>)

  /** The inner-exception chain, from the exception itself to the innermost one. */
  function Chain(ex: Exception): (c: seq<Exception>)
    ensures 1 <= |c| && c[0] == ex
    ensures forall i {:trigger c[i].inner} | 0 <= i < |c| - 1 :: c[i].inner == Some(c[i + 1])
    ensures c[|c| - 1].inner == None
  {
    match ex.inner
    case None => [ex]
    case Some(e) => [ex] + Chain(e)
  }

  /** GetBaseException: the innermost exception of the chain, the exception itself when it has no inner one. */
  function BaseException(ex: Exception): (b: Exception)
    ensures b.inner == None
    ensures ex.inner == None ==> b == ex
  {
    match ex.inner
    case None => ex
    case Some(e) => BaseException(e)
  }

  // The report is specified the way the source builds it: each function below
  // gives the text after appending one more part to the text `acc` so far.

  /** The caller's message and a line separator, when the message passes the shared check. */
  function Heading(host: Host, message: string): string
  {
    if host.input(message) then message + host.newLine else ""
  }

  /** `acc`, then one line per exception of `c`, in order: its message and a separator. */
  function WithMessages(acc: string, nl: string, c: seq<Exception>): string
  {
    if c == [] then acc else WithMessages(acc, nl, c[..|c| - 1]) + c[|c| - 1].message + nl
  }

  /** `acc`, then one "Data :" line per entry, in enumeration order. */
  function WithData(acc: string, host: Host, d: seq<DataEntry>): string
  {
    if d == [] then acc else WithData(acc, host, d[..|d| - 1]) + "Data :" + host.entryText(d[|d| - 1]) + host.newLine
  }

  /** `acc`, then a titled section, or nothing at all when the property is null. */
  function WithSection(acc: string, nl: string, title: string, value: Option<string>): string
  {
    match value
    case None => acc
    case Some(v) => acc + title + nl + v + nl
  }

  /** `acc`, then the message lines, the data lines and the three optional sections, in that order. */
  function WithDetails(acc: string, host: Host, ex: Exception): string
  {
    var nl := host.newLine;
    var messages := WithMessages(acc, nl, Chain(ex));
    var data := if ex.data.Some? then WithData(messages, host, ex.data.value) else messages;
    var stackTrace := WithSection(data, nl, "StackTrace:", ex.stackTrace);
    var source := WithSection(stackTrace, nl, "Source:", ex.source);
    WithSection(source, nl, "TargetSite:", ex.targetSite)
  }

  /** `acc`, then everything the report says about a non-null exception, ending with its base exception. */
  function WithReport(acc: string, host: Host, ex: Exception): string
  {
    var nl := host.newLine;
    WithDetails(acc + "Exception:" + nl, host, ex) + "BaseException:" + nl + host.exceptionText(BaseException(ex))
  }

  /** The whole report: the heading, then the exception's sections when there is an exception. */
  function LogString(host: Host, ex: Option<Exception>, message: string): string
  {
    match ex
    case None => Heading(host, message)
    case Some(e) => WithReport(Heading(host, message), host, e)
  }

  /**
   * ToLogString: the report built in a string accumulator, walking the
   * inner-exception chain with a loop and the Data entries with another.
   */
  method ToLogString(host: Host, ex: Option<Exception>, message: string) returns (s: string)
    ensures s == LogString(host, ex, message)
  {
    var nl := host.newLine;
    s := "";
    if host.input(message) {
      s := s + message;
      s := s + nl;
    }
    assert s == Heading(host, message);
    if ex.Some? {
      var e := ex.value;
      ghost var chain := Chain(e);
      s := s + "Exception:";
      s := s + nl;
      ghost var start := s;
      var current := Some(e);
      ghost var k := 0;
      while current.Some?
        invariant 0 <= k <= |chain|
        invariant current == if k < |chain| then Some(chain[k]) else None
        invariant s == WithMessages(start, nl, chain[..k])
        decreases current
      {
        assert chain[..k + 1][..k] == chain[..k];
        s := s + current.value.message;
        s := s + nl;
        current := current.value.inner;
        k := k + 1;
      }
      assert chain[..k] == chain;
      if e.data.Some? {
        var entries := e.data.value;
        ghost var messages := s;
        for i := 0 to |entries|
          invariant s == WithData(messages, host, entries[..i])
        {
          assert entries[..i + 1][..i] == entries[..i];
          s := s + "Data :";
          s := s + host.entryText(entries[i]);
          s := s + nl;
        }
        assert entries[..|entries|] == entries;
      }
      ghost var data := s;
      if e.stackTrace.Some? {
        s := s + "StackTrace:";
        s := s + nl;
        s := s + e.stackTrace.value;
        s := s + nl;
      }
      assert s == WithSection(data, nl, "StackTrace:", e.stackTrace);
      ghost var stackTrace := s;
      if e.source.Some? {
        s := s + "Source:";
        s := s + nl;
        s := s + e.source.value;
        s := s + nl;
      }
      assert s == WithSection(stackTrace, nl, "Source:", e.source);
      ghost var source := s;
      if e.targetSite.Some? {
        s := s + "TargetSite:";
        s := s + nl;
        s := s + e.targetSite.value;
        s := s + nl;
      }
      assert s == WithSection(source, nl, "TargetSite:", e.targetSite);
      assert s == WithDetails(start, host, e);
      var baseException := BaseException(e);
      s := s + "BaseException:";
      s := s + nl;
      s := s + host.exceptionText(baseException);
    }
  }

  /** Chain is exactly the walk along InnerException: any such walk from `ex` is Chain(ex). */
  lemma {:induction false} ChainIsTheInnerWalk(ex: Exception, c: seq<Exception>)
    requires 1 <= |c| && c[0] == ex
    requires forall i {:trigger c[i].inner} | 0 <= i < |c| - 1 :: c[i].inner == Some(c[i + 1])
    requires c[|c| - 1].inner == None
    ensures c == Chain(ex)
  {
    if |c| == 1 {
      assert ex.inner == None;
    } else {
      ChainIsTheInnerWalk(c[1], c[1..]);
      assert c == [ex] + c[1..];
    }
  }

  /** GetBaseException is the last exception of the chain. */
  lemma {:induction false} BaseExceptionEndsChain(ex: Exception)
    ensures BaseException(ex) == Chain(ex)[|Chain(ex)| - 1]
  {
    match ex.inner
    case None =>
    case Some(e) => BaseExceptionEndsChain(e);
  }

  /** Taking the first exception off the front: its message comes before all the others. */
  lemma {:induction false} WithMessagesFront(acc: string, nl: string, x: Exception, c: seq<Exception>)
    ensures WithMessages(acc, nl, [x] + c) == WithMessages(acc + x.message + nl, nl, c)
    decreases |c|
  {
    if c != [] {
      var n := |c| - 1;
      assert ([x] + c)[..|[x] + c| - 1] == [x] + c[..n];
      WithMessagesFront(acc, nl, x, c[..n]);
    }
  }

  /** The message lines run from the outermost exception to the innermost one. */
  lemma ChainMessagesOutermostFirst(acc: string, nl: string, ex: Exception)
    ensures ex.inner.None? ==> WithMessages(acc, nl, Chain(ex)) == acc + ex.message + nl
    ensures ex.inner.Some? ==>
      WithMessages(acc, nl, Chain(ex)) == WithMessages(acc + ex.message + nl, nl, Chain(ex.inner.value))
  {
    match ex.inner
    case None =>
      assert [ex][..0] == [];
    case Some(e) =>
      WithMessagesFront(acc, nl, ex, Chain(e));
  }

  /** Appending message lines only extends the text. */
  lemma {:induction false} WithMessagesExtends(acc: string, nl: string, c: seq<Exception>)
    ensures acc <= WithMessages(acc, nl, c)
  {
    if c != [] {
      WithMessagesExtends(acc, nl, c[..|c| - 1]);
    }
  }

  /** Appending data lines only extends the text. */
  lemma {:induction false} WithDataExtends(acc: string, host: Host, d: seq<DataEntry>)
    ensures acc <= WithData(acc, host, d)
  {
    if d != [] {
      WithDataExtends(acc, host, d[..|d| - 1]);
    }
  }

  /** Appending a section only extends the text. */
  lemma WithSectionExtends(acc: string, nl: string, title: string, value: Option<string>)
    ensures acc <= WithSection(acc, nl, title, value)
  {
    if value.Some? {
      assert WithSection(acc, nl, title, value) == acc + (title + nl + value.value + nl);
    }
  }

  /** A prefix of a prefix is a prefix. */
  lemma PrefixTransitive(a: string, b: string, c: string)
    requires a <= b && b <= c
    ensures a <= c
  {
  }

  /** Appending the message lines, data lines and sections only extends the text. */
  lemma WithDetailsExtends(acc: string, host: Host, ex: Exception)
    ensures acc <= WithDetails(acc, host, ex)
  {
    var nl := host.newLine;
    var messages := WithMessages(acc, nl, Chain(ex));
    WithMessagesExtends(acc, nl, Chain(ex));
    var data := if ex.data.Some? then WithData(messages, host, ex.data.value) else messages;
    if ex.data.Some? {
      WithDataExtends(messages, host, ex.data.value);
    }
    PrefixTransitive(acc, messages, data);
    var stackTrace := WithSection(data, nl, "StackTrace:", ex.stackTrace);
    WithSectionExtends(data, nl, "StackTrace:", ex.stackTrace);
    PrefixTransitive(acc, data, stackTrace);
    var source := WithSection(stackTrace, nl, "Source:", ex.source);
    WithSectionExtends(stackTrace, nl, "Source:", ex.source);
    PrefixTransitive(acc, stackTrace, source);
    WithSectionExtends(source, nl, "TargetSite:", ex.targetSite);
    PrefixTransitive(acc, source, WithDetails(acc, host, ex));
  }

  /** The exception part starts with "Exception:" and a separator right after `acc`. */
  lemma WithReportStart(acc: string, host: Host, ex: Exception)
    ensures acc + "Exception:" + host.newLine <= WithReport(acc, host, ex)
  {
    var nl := host.newLine;
    var start := acc + "Exception:" + nl;
    var details := WithDetails(start, host, ex);
    var text := host.exceptionText(BaseException(ex));
    WithDetailsExtends(start, host, ex);
    assert WithReport(acc, host, ex) == details + ("BaseException:" + nl + text);
    PrefixTransitive(start, details, WithReport(acc, host, ex));
  }

  /** `a + b + c` ends the text `w + a + b + c`. */
  lemma EndsWith(w: string, a: string, b: string, c: string)
    ensures var r := w + a + b + c;
            |a + b + c| <= |r| && r[|r| - |a + b + c|..] == a + b + c
  {
    var r := w + a + b + c;
    assert r == w + (a + b + c);
  }

  /**
   * The report on an exception ends with "BaseException:", a separator and
   * the base exception's text, with no separator after it. The part is there
   * even without an inner exception: the base exception is then the exception itself.
   */
  lemma WithReportEnd(acc: string, host: Host, ex: Exception)
    ensures var tail := "BaseException:" + host.newLine + host.exceptionText(BaseException(ex));
            var r := WithReport(acc, host, ex);
            |tail| <= |r| && r[|r| - |tail|..] == tail
    ensures ex.inner.None? ==> BaseException(ex) == ex
  {
    var nl := host.newLine;
    EndsWith(WithDetails(acc + "Exception:" + nl, host, ex), "BaseException:", nl, host.exceptionText(BaseException(ex)));
  }

  /**
   * The report starts with the caller's message and a line separator when
   * the message passes the shared check, and otherwise with nothing of it;
   * without an exception that is all there is, so an unchecked message and
   * no exception give "". With an exception, "Exception:" follows the
   * heading, and the base exception's text ends the report.
   */
  lemma LogStringShape(host: Host, ex: Option<Exception>, message: string)
    ensures host.input(message) ==> message + host.newLine <= LogString(host, ex, message)
    ensures ex.None? ==> LogString(host, ex, message) == Heading(host, message)
    ensures ex.None? && !host.input(message) ==> LogString(host, ex, message) == ""
    ensures ex.Some? ==> Heading(host, message) + "Exception:" + host.newLine <= LogString(host, ex, message)
    ensures ex.Some? ==>
      var tail := "BaseException:" + host.newLine + host.exceptionText(BaseException(ex.value));
      var r := LogString(host, ex, message);
      |tail| <= |r| && r[|r| - |tail|..] == tail
  {
    var heading := Heading(host, message);
    if ex.Some? {
      WithReportStart(heading, host, ex.value);
      WithReportEnd(heading, host, ex.value);
      PrefixTransitive(heading, heading + "Exception:" + host.newLine, LogString(host, ex, message));
    }
  }

  /** An exception with two nested inner exceptions lists all three messages, outermost first. */
  lemma ThreeMessagesInOrder(acc: string, nl: string, ex: Exception)
    requires ex.inner.Some? && ex.inner.value.inner.Some? && ex.inner.value.inner.value.inner.None?
    ensures var middle := ex.inner.value;
            var innermost := middle.inner.value;
            WithMessages(acc, nl, Chain(ex))
            == acc + ex.message + nl + middle.message + nl + innermost.message + nl
  {
    var middle := ex.inner.value;
    ChainMessagesOutermostFirst(acc, nl, ex);
    ChainMessagesOutermostFirst(acc + ex.message + nl, nl, middle);
    ChainMessagesOutermostFirst(acc + ex.message + nl + middle.message + nl, nl, middle.inner.value);
  }

  // ---------------------------------------------------------------------------
  // ToDictionary (src/Static.cs:210-231)
  // ---------------------------------------------------------------------------

  /** One key of a name/value collection with its value (either may be null). */
  datatype NamedValue = NamedValue(key: Option<string>, value: Option<string>)

  /** A name/value collection: its keys in order, each with its value. */
  datatype NameValueCollection = NameValueCollection(entries: seq<NamedValue>) {

    /** AllKeys: the keys in order. */
    function AllKeys(): (keys: seq<Option<string>>)
      ensures |keys| == |entries|
      ensures forall i | 0 <= i < |entries| :: keys[i] == entries[i].key
    {
      seq(|entries|, i requires 0 <= i < |entries| => entries[i].key)
    }

    /** The indexer: the value of the first entry with this key, null when there is none. */
    function Get(key: Option<string>): Option<string>
    {
      Lookup(entries, key)
    }
  }

  /** The value of the first entry of `entries` with this key, None when there is none. */
  function Lookup(entries: seq<NamedValue>, key: Option<string>): Option<string>
  {
    if entries == [] then None
    else if entries[0].key == key then entries[0].value
    else Lookup(entries[1..], key)
  }

  /** Dictionary.Add accepts keys[i]: it is not null and not added before. */
  predicate Addable(keys: seq<Option<string>>, i: int)
    requires 0 <= i < |keys|
  {
    keys[i].Some? && keys[i] !in keys[..i]
  }

  /** Every key of the list is accepted in turn. */
  predicate AllAddable(keys: seq<Option<string>>)
  {
    forall i | 0 <= i < |keys| :: Addable(keys, i)
  }

  /** The position of the first key Dictionary.Add rejects, at or after `from`. */
  function FirstRejected(keys: seq<Option<string>>, from: nat): (i: nat)
    requires from <= |keys|
    requires exists j | from <= j < |keys| :: !Addable(keys, j)
    ensures from <= i < |keys| && !Addable(keys, i)
    ensures forall j | from <= j < i :: Addable(keys, j)
    decreases |keys| - from
  {
    if !Addable(keys, from) then from else FirstRejected(keys, from + 1)
  }

  /** What Dictionary.Add throws for a key it rejects. */
  function AddError(key: Option<string>): Error
  {
    match key
    case None => ArgumentNull("key")
    case Some(k) => DuplicateKey(k)
  }

  /**
   * ToDictionary: a null collection gives an empty dictionary. Otherwise
   * every key of AllKeys is added with its value; the first null or repeated
   * key makes Add throw, which is reported, and null is returned.
   */
  method ToDictionary(nvm: Option<NameValueCollection>, ghost reported: seq<Error>)
    returns (r: Option<map<string, Option<string>>>, ghost reported': seq<Error>)
    ensures nvm.None? ==> r == Some(map[])
    ensures nvm.Some? ==> (r.Some? <==> AllAddable(nvm.value.AllKeys()))
    ensures nvm.Some? && r.Some? ==>
      (forall k :: k in r.value <==> Some(k) in nvm.value.AllKeys())
      && (forall k | k in r.value :: r.value[k] == nvm.value.Get(Some(k)))
    ensures reported' ==
      if nvm.Some? && !AllAddable(nvm.value.AllKeys())
      then reported + [AddError(nvm.value.AllKeys()[FirstRejected(nvm.value.AllKeys(), 0)])]
      else reported
  {
    var dict: map<string, Option<string>> := map[];
    if nvm.None? {
      return Some(dict), reported;
    }
    var keys := nvm.value.AllKeys();
    for i := 0 to |keys|
      invariant forall j | 0 <= j < i :: Addable(keys, j)
      invariant forall k :: k in dict <==> Some(k) in keys[..i]
      invariant forall k | k in dict :: dict[k] == nvm.value.Get(Some(k))
    {
      var key := keys[i];
      var value := nvm.value.Get(key);
      if !Addable(keys, i) {
        assert FirstRejected(keys, 0) == i;
        return None, reported + [AddError(key)];
      }
      dict := dict[key.value := value];
      assert keys[..i + 1] == keys[..i] + [key];
    }
    assert keys[..|keys|] == keys;
    return Some(dict), reported;
  }

  /** The indexer finds an entry whose key no earlier entry has. */
  lemma {:induction false} LookupFindsEntry(entries: seq<NamedValue>, i: int)
    requires 0 <= i < |entries|
    requires forall j | 0 <= j < i :: entries[j].key != entries[i].key
    ensures Lookup(entries, entries[i].key) == entries[i].value
  {
    if i > 0 {
      LookupFindsEntry(entries[1..], i - 1);
    }
  }

  /** Dictionary.Add accepts every key in turn exactly when no key is null and no key repeats. */
  lemma AllAddableIffDistinct(keys: seq<Option<string>>)
    ensures AllAddable(keys) <==>
      (forall i | 0 <= i < |keys| :: keys[i].Some?)
      && (forall i, j | 0 <= i < j < |keys| :: keys[i] != keys[j])
  {
    if AllAddable(keys) {
      forall i | 0 <= i < |keys| ensures keys[i].Some? {
        assert Addable(keys, i);
      }
      forall i, j | 0 <= i < j < |keys| ensures keys[i] != keys[j] {
        assert Addable(keys, j);
        assert keys[..j][i] == keys[i];
      }
    }
  }

  /**
   * When ToDictionary succeeds, the value stored under each key is the value
   * of the collection's entry with that key.
   */
  lemma DictionaryValuesAreEntryValues(nvm: NameValueCollection, i: int)
    requires AllAddable(nvm.AllKeys())
    requires 0 <= i < |nvm.entries|
    ensures nvm.entries[i].key.Some?
    ensures nvm.Get(nvm.entries[i].key) == nvm.entries[i].value
  {
    var keys := nvm.AllKeys();
    AllAddableIffDistinct(keys);
    LookupFindsEntry(nvm.entries, i);
  }
}
