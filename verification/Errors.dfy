/**
 Error objects and warnings on their way from a state callback to the remote
 setter: what the owner's peer puts into the response and what the synchronous
 setter makes of it.
 */
module Errors {
  import opened Json

  const ERR := "error"
  const CODE := "code"
  const MESSAGE := "message"
  const DATA := "data"
  const RESULT := "result"
  const WARNING := "warning"
  const ID := "id"

  /** The internal error code of section 5.1 of JSON-RPC 2.0. */
  const INTERNAL_ERROR := -32603
  const SEE_DATA := "see data object for details"

  lemma KeysDiffer()
    ensures ERR != RESULT && ID != ERR && ID != RESULT
    ensures CODE != MESSAGE && CODE != DATA && MESSAGE != DATA
  {
    assert |ERR| == 5 && |RESULT| == 6 && |ID| == 2 && |CODE| == 4 && |MESSAGE| == 7 && |DATA| == 4;
    assert CODE[0] != DATA[0];
  }

  datatype Entry = Entry(code: int, message: string)

  /** `jsoncpprpcException`. */
  datatype JetException = JetException(code: int, message: string, data: Json)

  /** What a callback may throw, by the handler that catches it. */
  datatype Thrown =
    | Jet(e: JetException)
    | JsonRpc(code: int, message: string)
    | Std(what: string)
    | Other

  /** What a state callback returns: the changed value or null, and a warning. */
  datatype SetOutcome = Returned(value: Json, code: int, message: string) | Threw(t: Thrown)

  // ---- nested entries ----

  function EntryJson(e: Entry): Json {
    Obj(map[CODE := Int(e.code), MESSAGE := Str(e.message)])
  }

  /** The data object of an exception built from entries; without entries it stays null. */
  function EntriesJson(entries: map<string, Entry>): Json {
    if entries == map[] then Null else Obj(map k | k in entries :: EntryJson(entries[k]))
  }

  function EntryOf(node: Json): Entry {
    Entry(AsInt(Get(node, CODE)), AsString(Get(node, MESSAGE)))
  }

  /** The entries read from a data object; elements of an array are named by their index. */
  function EntriesOf(data: Json): map<string, Entry> {
    match data
    case Obj(members) => map k | k in members :: EntryOf(members[k])
    case Arr(items) => ItemEntries(items)
    case _ => map[]
  }

  function ItemEntries(items: seq<Json>): map<string, Entry> {
    if items == [] then map[]
    else ItemEntries(items[..|items| - 1])[Decimal(|items| - 1) := EntryOf(items[|items| - 1])]
  }

  /** The text of an index. */
  function Decimal(n: nat): string {
    if n < 10 then [DIGITS[n]] else Decimal(n / 10) + [DIGITS[n % 10]]
  }

  const DIGITS := "0123456789"

  /** The last digit and the digits before it. */
  lemma DecimalParts(n: nat)
    ensures |Decimal(n)| >= 1 && Decimal(n)[|Decimal(n)| - 1] == DIGITS[n % 10]
    ensures Decimal(n)[..|Decimal(n)| - 1] == if n < 10 then [] else Decimal(n / 10)
    ensures n >= 10 <==> |Decimal(n)| > 1
  {
    if n >= 10 { DecimalLength(n / 10); }
  }

  lemma {:induction false} DecimalInjective(a: nat, b: nat)
    requires Decimal(a) == Decimal(b)
    ensures a == b
    decreases a
  {
    DecimalParts(a);
    DecimalParts(b);
    DigitsDiffer(a % 10, b % 10);
    if a >= 10 { DecimalInjective(a / 10, b / 10); }
  }

  lemma DigitsDiffer(a: nat, b: nat)
    requires a < 10 && b < 10
    ensures DIGITS[a] == DIGITS[b] ==> a == b
  {
  }

  lemma DecimalLength(n: nat)
    ensures |Decimal(n)| >= 1
  {
  }

  lemma {:induction false} ItemEntry(items: seq<Json>, i: nat)
    requires i < |items|
    ensures Decimal(i) in ItemEntries(items) && ItemEntries(items)[Decimal(i)] == EntryOf(items[i])
    decreases |items|
  {
    var k := |items| - 1;
    if i < k {
      ItemEntry(items[..k], i);
      if Decimal(i) == Decimal(k) { DecimalInjective(i, k); }
    }
  }

  ghost predicate IsIndex(key: string, n: nat) {
    exists i: nat :: i < n && Decimal(i) == key
  }

  lemma {:induction false} ItemKey(items: seq<Json>, key: string)
    requires key in ItemEntries(items)
    ensures IsIndex(key, |items|)
    decreases |items|
  {
    var k := |items| - 1;
    if key in ItemEntries(items[..k]) {
      ItemKey(items[..k], key);
      var i: nat :| i < k && Decimal(i) == key;
      assert i < |items|;
    } else {
      assert Decimal(k) == key;
    }
  }

  /** Every element of an array is an entry of its own, and there are no others. */
  lemma ArrayEntries(items: seq<Json>)
    ensures forall i: nat :: i < |items| ==>
              Decimal(i) in EntriesOf(Arr(items)) && EntriesOf(Arr(items))[Decimal(i)] == EntryOf(items[i])
    ensures forall key :: key in EntriesOf(Arr(items)) ==> IsIndex(key, |items|)
  {
    forall i: nat | i < |items|
      ensures Decimal(i) in EntriesOf(Arr(items)) && EntriesOf(Arr(items))[Decimal(i)] == EntryOf(items[i])
    {
      ItemEntry(items, i);
    }
    forall key | key in EntriesOf(Arr(items)) ensures IsIndex(key, |items|) { ItemKey(items, key); }
  }

  /** The constructor from entries. */
  method FromEntries(entries: map<string, Entry>) returns (e: JetException)
    ensures e == JetException(-1, SEE_DATA, EntriesJson(entries))
  {
    var data := Null;
    var todo := entries.Keys;
    assert entries - todo == map[];
    while todo != {}
      invariant todo <= entries.Keys
      invariant data == EntriesJson(entries - todo)
      decreases |todo|
    {
      var k :| k in todo;
      var item := Put(Put(Null, CODE, Int(entries[k].code)), MESSAGE, Str(entries[k].message));
      OneMore(entries, todo, k, item);
      data := Put(data, k, item);
      todo := todo - {k};
    }
    assert entries - todo == entries;
    e := JetException(-1, SEE_DATA, data);
  }

  lemma OneMore(entries: map<string, Entry>, todo: set<string>, k: string, item: Json)
    requires k in entries && k in todo
    requires item == Put(Put(Null, CODE, Int(entries[k].code)), MESSAGE, Str(entries[k].message))
    ensures Put(EntriesJson(entries - todo), k, item) == EntriesJson(entries - (todo - {k}))
  {
    var before, after := entries - todo, entries - (todo - {k});
    assert k in after;
    assert after == before[k := entries[k]];
    assert item == EntryJson(entries[k]);
    assert Put(EntriesJson(before), k, item).members == EntriesJson(after).members;
  }

  /** `dataEntries()`. */
  method DataEntries(e: JetException) returns (entries: map<string, Entry>)
    ensures entries == EntriesOf(e.data)
  {
    entries := map[];
    if e.data.Arr? {
      for i := 0 to |e.data.items|
        invariant entries == ItemEntries(e.data.items[..i])
      {
        assert e.data.items[..i + 1][..i] == e.data.items[..i];
        entries := entries[Decimal(i) := EntryOf(e.data.items[i])];
      }
      assert e.data.items[..|e.data.items|] == e.data.items;
    } else if e.data.Obj? {
      var todo := e.data.members.Keys;
      while todo != {}
        invariant todo <= e.data.members.Keys
        invariant entries == EntriesOf(e.data) - todo
        decreases |todo|
      {
        var k :| k in todo;
        entries := entries[k := EntryOf(e.data.members[k])];
        todo := todo - {k};
      }
      assert EntriesOf(e.data) - todo == EntriesOf(e.data);
    }
  }

  /** Entries survive the trip through the data object, including the empty set of entries. */
  lemma EntriesRoundTrip(entries: map<string, Entry>)
    ensures EntriesOf(EntriesJson(entries)) == entries
  {
    KeysDiffer();
    forall k | k in entries ensures EntryOf(EntryJson(entries[k])) == entries[k] { }
  }

  // ---- responses ----

  /** `json()`. */
  function ToJson(e: JetException): Json {
    Put(Null, ERR, Put(Put(Put(Null, CODE, Int(e.code)), MESSAGE, Str(e.message)), DATA, e.data))
  }

  /** The constructor from a response. */
  function FromResponse(response: Json): JetException {
    var err := Get(response, ERR);
    JetException(AsInt(Get(err, CODE)), AsString(Get(err, MESSAGE)), Get(err, DATA))
  }

  function ErrorResponse(code: int, message: string): Json {
    Put(Null, ERR, Put(Put(Null, CODE, Int(code)), MESSAGE, Str(message)))
  }

  /** The catch clauses around a callback. */
  function Caught(t: Thrown): Json {
    match t
    case Jet(e) => ToJson(e)
    case JsonRpc(code, message) => ErrorResponse(code, message)
    case Std(what) => ErrorResponse(INTERNAL_ERROR, what)
    case Other => ErrorResponse(INTERNAL_ERROR, "caught exception!")
  }

  /** The response to a set that did not throw. */
  function SetResponse(code: int, message: string): Json {
    if code == 0 then Put(Null, RESULT, Obj(map[]))
    else
      var w := Put(Null, CODE, Int(code));
      Put(Null, RESULT, Put(Null, WARNING, if message == "" then w else Put(w, MESSAGE, Str(message))))
  }

  /** Exactly one of result and error, as section 5 of JSON-RPC 2.0 demands. */
  predicate WellFormed(response: Json) {
    IsMember(response, RESULT) != IsMember(response, ERR)
  }

  /** What an exception and an entry look like on the wire. */
  lemma ErrorFields(e: JetException, entry: Entry)
    ensures var err := Get(ToJson(e), "error");
            Get(err, "code") == Int(e.code) && Get(err, "message") == Str(e.message) && Get(err, "data") == e.data
    ensures Get(EntryJson(entry), "code") == Int(entry.code) && Get(EntryJson(entry), "message") == Str(entry.message)
    ensures SEE_DATA == "see data object for details" && INTERNAL_ERROR == -32603
  {
    KeysDiffer();
  }

  /** What a warning looks like on the wire: its code, and its text unless empty. */
  lemma WarningFields(code: int, message: string)
    ensures var warning := Get(Get(SetResponse(code, message), "result"), "warning");
            if code == 0 then warning == Null && Get(SetResponse(code, message), "result") == Obj(map[])
            else Get(warning, "code") == Int(code)
                 && Get(warning, "message") == (if message == "" then Null else Str(message))
  {
    KeysDiffer();
  }

  lemma CaughtIsError(t: Thrown, id: Json)
    ensures var r := Put(Caught(t), ID, id);
            WellFormed(r) && IsMember(r, ERR) && Get(r, ID) == id
  {
    KeysDiffer();
  }

  lemma SetResponseIsResult(code: int, message: string, id: Json)
    ensures var r := Put(SetResponse(code, message), ID, id);
            WellFormed(r) && IsMember(r, RESULT) && Get(r, ID) == id
  {
    KeysDiffer();
  }

  // ---- the remote setter ----

  /** What `setStateValue` does: throw or return a warning code and text. */
  datatype SetStateValueResult = Raised(e: JetException) | Completed(code: int, message: string)

  /** `setStateValuePrivate`, once the response is there. */
  method DecodeSetResponse(response: Json) returns (r: SetStateValueResult)
    ensures r == SetStateValue(response)
  {
    var code := 0;
    if IsMember(response, ERR) {
      return Raised(FromResponse(response));
    }
    var node := Get(Get(Get(response, RESULT), WARNING), CODE);
    if node.Int? {
      code := AsInt(node);
    }
    r := Completed(code, "");
  }

  function SetStateValue(response: Json): SetStateValueResult {
    if IsMember(response, ERR) then Raised(FromResponse(response))
    else Completed(AsInt(Get(Get(Get(response, RESULT), WARNING), CODE)), "")
  }

  /** The daemon routes the response back under the caller's own id. */
  function Routed(response: Json, ownerId: Json, callerId: Json): Json {
    Put(Put(response, ID, ownerId), ID, callerId)
  }

  /** The exception the setter should see for what the callback threw. */
  function Seen(t: Thrown): JetException {
    match t
    case Jet(e) => e
    case JsonRpc(code, message) => JetException(code, message, Null)
    case Std(what) => JetException(INTERNAL_ERROR, what, Null)
    case Other => JetException(INTERNAL_ERROR, "caught exception!", Null)
  }

  lemma RoutedKeeps(response: Json, a: Json, b: Json, key: string)
    requires key != ID
    ensures Get(Routed(response, a, b), key) == Get(response, key)
    ensures response.Obj? ==> (IsMember(Routed(response, a, b), key) <==> IsMember(response, key))
  {
  }

  lemma SeenIsCaught(t: Thrown)
    ensures FromResponse(Caught(t)) == Seen(t) && IsMember(Caught(t), ERR)
  {
    KeysDiffer();
  }

  /** A caught exception is raised by the setter with the same code, message and data. */
  lemma ThrownReachesSetter(t: Thrown, ownerId: Json, callerId: Json)
    ensures SetStateValue(Routed(Caught(t), ownerId, callerId)) == Raised(Seen(t))
  {
    KeysDiffer();
    SeenIsCaught(t);
    RoutedKeeps(Caught(t), ownerId, callerId, ERR);
  }

  /**
   Any warning code comes back unchanged, and the absence of a warning as 0. The
   warning text does not: the setter never returns one.
   */
  lemma WarningReachesSetter(code: int, message: string, ownerId: Json, callerId: Json)
    ensures SetStateValue(Routed(SetResponse(code, message), ownerId, callerId)) == Completed(code, "")
  {
    KeysDiffer();
    RoutedKeeps(SetResponse(code, message), ownerId, callerId, ERR);
    RoutedKeeps(SetResponse(code, message), ownerId, callerId, RESULT);
    assert !IsMember(SetResponse(code, message), ERR);
    assert AsInt(Get(Get(Get(SetResponse(code, message), RESULT), WARNING), CODE)) == code;
  }
}
