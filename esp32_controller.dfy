/** The device-facing command channel: ingestion of device and operator
    reports (`receiveData`), the poll that drains a SIM's queue
    (`sendCommands`) and the operator's status request (`requestStatus`).
    The document store is held in memory as a sequence of machine records and
    the operation log; foreign calls and the clock are inputs (`Runtime`). */
module Esp32Controller {
  import opened Js
  import opened Models
  import opened MessageQueueService

  // ---------------------------------------------------------------------
  // Requests, responses and the runtime's foreign calls
  // ---------------------------------------------------------------------

  /** A JSON value, told apart only as far as the phone-book filter does. */
  datatype JsonValue =
    | JString(s: string)
    | JFalsy  // null, false, 0 or NaN
    | JOther  // any other non-string value: a non-zero number, true, an object or an array

  /** A value `JSON.parse` produced. */
  datatype Json = JArray(items: seq<JsonValue>) | JNotArray

  /** `phoneBook` as the body carries it: a text field (absent is "") or an
      already structured array. */
  datatype PhoneBookField = Text(raw: string) | List(items: seq<JsonValue>)

  /** The fields of an inbound report; an absent field is "". `numbers[k]` is
      the field `number<k>`. */
  datatype Body = Body(
    cmd: string,
    simNumber: string,
    status: string,
    sensorStatus: string,
    location: string,
    job: string,
    fuelConsumption: string,
    pressure: string,
    processTime: string,
    count: string,
    numbers: map<nat, string>,
    phoneBook: PhoneBookField)

  /** The clock and the library calls the handlers make. `None` stands for NaN
      (parseInt, parseFloat) or a thrown error (decodeURIComponent, JSON.parse).
      `formEncode` is the application/x-www-form-urlencoded byte serializer of
      the WHATWG URL Standard. */
  datatype Runtime = Runtime(
    now: Time,
    parseInt: string -> Option<int>,
    parseFloat: string -> Option<real>,
    encodeUriComponent: string -> string,
    decodeUriComponent: string -> Option<string>,
    jsonParse: string -> Option<Json>,
    formEncode: string -> string)

  datatype ContentType = TextHtml | FormUrlEncoded

  datatype Response = Response(status: nat, contentType: ContentType, body: string)

  /** `res.status(code).send(text)`. */
  function Reply(status: nat, text: string): Response {
    Response(status, TextHtml, text)
  }

  /** `parseFloat(field)`: NaN for an absent field. */
  function FloatField(rt: Runtime, s: string): Option<real> {
    if Truthy(s) then rt.parseFloat(s) else None
  }

  /** `parseInt(field)`: NaN for an absent field. */
  function IntField(rt: Runtime, s: string): Option<int> {
    if Truthy(s) then rt.parseInt(s) else None
  }

  // ---------------------------------------------------------------------
  // Which branch a report takes
  // ---------------------------------------------------------------------

  datatype Route = GetStatus | DirUpdate | StatusUpdate | Job | MissingSim | Generic

  /** The tag and SIM tests of `receiveData`, in the order the source makes them. */
  function Classify(b: Body): (r: Route)
    ensures r == MissingSim <==> !Truthy(b.simNumber)
    ensures r == GetStatus <==> Truthy(b.simNumber) && b.cmd == "get_status"
    ensures r == DirUpdate <==> Truthy(b.simNumber) && b.cmd == "dir_update"
    ensures r == StatusUpdate <==> Truthy(b.simNumber) && b.cmd == "STATUS_UPDATE"
    ensures r == Job <==> Truthy(b.simNumber) && b.cmd == "JOB"
  {
    if b.cmd == "get_status" && Truthy(b.simNumber) then GetStatus
    else if b.cmd == "dir_update" && Truthy(b.simNumber) then DirUpdate
    else if b.cmd == "STATUS_UPDATE" && Truthy(b.simNumber) then StatusUpdate
    else if b.cmd == "JOB" && Truthy(b.simNumber) then Job
    else if !Truthy(b.simNumber) then MissingSim
    else Generic
  }

  // ---------------------------------------------------------------------
  // Command payloads
  // ---------------------------------------------------------------------

  const GetStatusCommand: string := "cmd=get_status"

  /** `${count || 0}`. */
  function CountText(count: string): string {
    if Truthy(count) then count else "0"
  }

  /** `parseInt(count) || 0`: how many `number<k>` fields the encoder visits. */
  function NumCount(b: Body, rt: Runtime): int {
    IntField(rt, b.count).GetOr(0)
  }

  predicate HasNumber(numbers: map<nat, string>, k: nat) {
    k in numbers && Truthy(numbers[k])
  }

  /** Strictly increasing, hence free of repeats. */
  ghost predicate Ascending(s: seq<nat>) {
    forall i, j :: 0 <= i < j < |s| ==> s[i] < s[j]
  }

  /** An ascending list stays ascending when a larger element is appended. */
  lemma AscendingSnoc(s: seq<nat>, x: nat)
    requires Ascending(s) && forall i :: 0 <= i < |s| ==> s[i] < x
    ensures Ascending(s + [x])
  {
  }

  /** The k in 1..n whose field `number<k>` is present, ascending
      (`SelectedSpec`). */
  function Selected(numbers: map<nat, string>, n: int): (ks: seq<nat>)
    ensures forall k :: k in ks ==> k in numbers
    decreases if n < 0 then 0 else n
  {
    if n <= 0 then []
    else Selected(numbers, n - 1) + (if HasNumber(numbers, n) then [n] else [])
  }

  /** `Selected` holds exactly the present numbers among 1..n, each once, in
      ascending order. */
  lemma {:induction false} SelectedSpec(numbers: map<nat, string>, n: int)
    ensures forall k: nat :: k in Selected(numbers, n) <==> 1 <= k <= n && HasNumber(numbers, k)
    ensures Ascending(Selected(numbers, n))
    decreases if n < 0 then 0 else n
  {
    if n > 0 {
      SelectedSpec(numbers, n - 1);
      var prev := Selected(numbers, n - 1);
      assert forall i :: 0 <= i < |prev| ==> prev[i] in prev;
      AscendingSnoc(prev, n);
    }
  }

  /** `&number<k>=<encoded number>`. */
  function NumberField(numbers: map<nat, string>, enc: string -> string, k: nat): string
    requires k in numbers
  {
    "&number" + Decimal(k) + "=" + enc(numbers[k])
  }

  /** The number fields of each k of `ks`, in order. */
  function NumberFields(numbers: map<nat, string>, enc: string -> string, ks: seq<nat>): string
    requires forall k :: k in ks ==> k in numbers
  {
    if ks == [] then ""
    else NumberFields(numbers, enc, ks[..|ks| - 1]) + NumberField(numbers, enc, ks[|ks| - 1])
  }

  /** The text every directory-update payload starts with. */
  function DirUpdateHeader(count: string): string {
    "cmd=dir_update&count=" + CountText(count)
  }

  /** The number fields the encoder emits while visiting 1..n in turn. */
  function FieldsUpTo(numbers: map<nat, string>, enc: string -> string, n: int): string
    decreases if n < 0 then 0 else n
  {
    if n <= 0 then ""
    else FieldsUpTo(numbers, enc, n - 1) + (if HasNumber(numbers, n) then NumberField(numbers, enc, n) else "")
  }

  lemma NumberFieldsSnoc(numbers: map<nat, string>, enc: string -> string, ks: seq<nat>, k: nat)
    requires forall x :: x in ks ==> x in numbers
    requires k in numbers
    ensures NumberFields(numbers, enc, ks + [k]) == NumberFields(numbers, enc, ks) + NumberField(numbers, enc, k)
  {
    assert (ks + [k])[..|ks|] == ks;
  }

  /** Visiting 1..n in turn emits exactly the fields of the present numbers
      among 1..n, ascending. */
  lemma {:induction false} FieldsUpToSelected(numbers: map<nat, string>, enc: string -> string, n: int)
    ensures FieldsUpTo(numbers, enc, n) == NumberFields(numbers, enc, Selected(numbers, n))
    decreases if n < 0 then 0 else n
  {
    if n > 0 {
      FieldsUpToSelected(numbers, enc, n - 1);
      var prev := Selected(numbers, n - 1);
      if HasNumber(numbers, n) {
        assert Selected(numbers, n) == prev + [n];
        NumberFieldsSnoc(numbers, enc, prev, n);
      } else {
        assert Selected(numbers, n) == prev;
      }
    }
  }

  /** The directory-update command: the caller's raw count (not recomputed),
      then the present numbers among 1..count, ascending. */
  function DirUpdatePayload(b: Body, rt: Runtime): (p: string)
    ensures DirUpdateHeader(b.count) <= p
  {
    DirUpdateHeader(b.count) + NumberFields(b.numbers, rt.encodeUriComponent, Selected(b.numbers, NumCount(b, rt)))
  }

  /** The loop that builds the directory-update command. */
  method BuildDirUpdate(b: Body, rt: Runtime) returns (payload: string)
    ensures payload == DirUpdatePayload(b, rt)
  {
    payload := "cmd=dir_update&count=" + CountText(b.count);
    var numCount := NumCount(b, rt);
    var i := 1;
    while i <= numCount
      invariant 1 <= i
      invariant numCount < 1 ==> i == 1
      invariant numCount >= 1 ==> i <= numCount + 1
      invariant payload == DirUpdateHeader(b.count) + FieldsUpTo(b.numbers, rt.encodeUriComponent, i - 1)
    {
      ghost var fields := FieldsUpTo(b.numbers, rt.encodeUriComponent, i - 1);
      if HasNumber(b.numbers, i) {
        var field := NumberField(b.numbers, rt.encodeUriComponent, i);
        assert FieldsUpTo(b.numbers, rt.encodeUriComponent, i) == fields + field;
        payload := payload + field;
      } else {
        assert FieldsUpTo(b.numbers, rt.encodeUriComponent, i) == fields;
      }
      i := i + 1;
    }
    FieldsUpToSelected(b.numbers, rt.encodeUriComponent, numCount);
  }

  /** A stated count larger than the numbers supplied is kept as it is: with
      count 3 and only numbers 1 and 2, the payload says 3 and carries two fields. */
  lemma DirUpdateCountMismatch(b: Body, rt: Runtime)
    requires b.count == "3" && rt.parseInt("3") == Some(3)
    requires HasNumber(b.numbers, 1) && HasNumber(b.numbers, 2) && 3 !in b.numbers
    ensures DirUpdatePayload(b, rt)
         == "cmd=dir_update&count=3"
          + "&number1=" + rt.encodeUriComponent(b.numbers[1])
          + "&number2=" + rt.encodeUriComponent(b.numbers[2])
  {
    var enc := rt.encodeUriComponent;
    var nf1, nf2 := NumberField(b.numbers, enc, 1), NumberField(b.numbers, enc, 2);
    assert Decimal(1) == "1" && Decimal(2) == "2";
    assert nf1 == "&number1=" + enc(b.numbers[1]);
    assert nf2 == "&number2=" + enc(b.numbers[2]);
    assert NumCount(b, rt) == 3;
    FieldsUpToSelected(b.numbers, enc, 3);
    assert FieldsUpTo(b.numbers, enc, 1) == nf1 by {
      assert FieldsUpTo(b.numbers, enc, 0) == "";
    }
    assert FieldsUpTo(b.numbers, enc, 3) == nf1 + nf2 by {
      assert FieldsUpTo(b.numbers, enc, 3) == FieldsUpTo(b.numbers, enc, 2);
    }
    var header := "cmd=dir_update&count=3";
    assert DirUpdateHeader(b.count) == header;
    assert DirUpdatePayload(b, rt) == header + (nf1 + nf2);
    assert header + (nf1 + nf2) == header + "&number1=" + enc(b.numbers[1]) + "&number2=" + enc(b.numbers[2]);
  }

  // ---------------------------------------------------------------------
  // Phone-book normalisation
  // ---------------------------------------------------------------------

  /** `if (phoneBook)`. */
  predicate PhoneBookGiven(p: PhoneBookField) {
    p.List? || Truthy(p.raw)
  }

  /** The array the phone book yields before filtering: an array as it is; a
      text percent-decoded then parsed, or `[raw]` when either step fails or
      the parse is not an array. */
  function PhoneBookEntries(p: PhoneBookField, rt: Runtime): seq<JsonValue>
    requires PhoneBookGiven(p)
  {
    match p
    case List(items) => items
    case Text(raw) =>
      match rt.decodeUriComponent(raw)
      case None => [JString(raw)]
      case Some(decoded) =>
        match rt.jsonParse(decoded)
        case Some(JArray(items)) => items
        case _ => [JString(raw)]
  }

  /** `entries.filter(entry => entry && entry.trim() !== '')`: `None` when a
      truthy non-string entry makes `trim` throw. */
  function DropBlank(es: seq<JsonValue>): Option<seq<string>>
  {
    if es == [] then Some([])
    else
      var rest := DropBlank(es[1..]);
      match es[0]
      case JOther => None
      case JFalsy => rest
      case JString(s) =>
        if !NonBlank(s) then rest
        else if rest.None? then None
        else Some([s] + rest.value)
  }

  /** The filter throws exactly when some entry is a truthy non-string; otherwise
      it keeps exactly the non-blank string entries, and never adds any. */
  lemma {:induction false} DropBlankSpec(es: seq<JsonValue>)
    ensures DropBlank(es).Some? <==> forall i :: 0 <= i < |es| ==> !es[i].JOther?
    ensures DropBlank(es).Some? ==> |DropBlank(es).value| <= |es|
    ensures DropBlank(es).Some? ==> forall s :: s in DropBlank(es).value <==> JString(s) in es && NonBlank(s)
  {
    if es != [] {
      DropBlankSpec(es[1..]);
      assert forall v :: v in es <==> v == es[0] || v in es[1..];
      assert forall i :: 1 <= i < |es| ==> es[i] == es[1..][i - 1];
    }
  }

  /** The filter on a single entry: a falsy value or a blank string is
      dropped, a non-blank string kept, and any other value throws. */
  lemma DropBlankSingle(v: JsonValue)
    ensures DropBlank([v]) == match v
                              case JString(s) => Some(if NonBlank(s) then [s] else [])
                              case JFalsy => Some([])
                              case JOther => None
  {
    assert DropBlank([v][1..]) == Some([]);
    if v.JString? {
      assert [v.s] + [] == [v.s];
    }
  }

  /** Filtering a concatenation filters each part and joins the results in
      order; it throws when either part does. */
  lemma {:induction false} DropBlankConcat(a: seq<JsonValue>, b: seq<JsonValue>)
    ensures DropBlank(a + b) == if DropBlank(a).Some? && DropBlank(b).Some?
                                then Some(DropBlank(a).value + DropBlank(b).value)
                                else None
  {
    if a == [] {
      assert a + b == b;
      assert DropBlank(a) == Some([]);
      if DropBlank(b).Some? {
        assert [] + DropBlank(b).value == DropBlank(b).value;
      }
    } else {
      assert (a + b)[0] == a[0];
      assert (a + b)[1..] == a[1..] + b;
      DropBlankConcat(a[1..], b);
      match a[0]
      case JOther =>
      case JFalsy =>
      case JString(s) =>
        if NonBlank(s) && DropBlank(a[1..]).Some? && DropBlank(b).Some? {
          var x, y := DropBlank(a[1..]).value, DropBlank(b).value;
          assert [s] + (x + y) == ([s] + x) + y;
        }
    }
  }

  function Strings(xs: seq<string>): (es: seq<JsonValue>)
    ensures |es| == |xs| && forall i :: 0 <= i < |xs| ==> es[i] == JString(xs[i])
  {
    seq(|xs|, i requires 0 <= i < |xs| => JString(xs[i]))
  }

  /** The non-blank strings of `xs`, in order: an order-preserving filter
      over plain strings, built from the back. */
  function NonBlankOnly(xs: seq<string>): seq<string>
  {
    if xs == [] then []
    else NonBlankOnly(xs[..|xs| - 1]) + (if NonBlank(xs[|xs| - 1]) then [xs[|xs| - 1]] else [])
  }

  /** `NonBlankOnly` keeps every non-blank string and nothing else. */
  lemma {:induction false} NonBlankOnlySpec(xs: seq<string>)
    ensures |NonBlankOnly(xs)| <= |xs|
    ensures forall s :: s in NonBlankOnly(xs) <==> s in xs && NonBlank(s)
  {
    if xs != [] {
      var init := xs[..|xs| - 1];
      NonBlankOnlySpec(init);
      assert xs == init + [xs[|xs| - 1]];
    }
  }

  /** On an array of strings the filter is the list with its blank entries
      removed, the others kept in their order. */
  lemma {:induction false} DropBlankStrings(xs: seq<string>)
    ensures DropBlank(Strings(xs)) == Some(NonBlankOnly(xs))
  {
    if xs != [] {
      var n := |xs| - 1;
      var init := xs[..n];
      DropBlankStrings(init);
      assert Strings(xs) == Strings(init) + [JString(xs[n])];
      DropBlankConcat(Strings(init), [JString(xs[n])]);
      DropBlankSingle(JString(xs[n]));
    }
  }

  /** A stored phone book passes through the filter again unchanged. */
  lemma {:induction false} DropBlankIdempotent(xs: seq<string>)
    requires forall i :: 0 <= i < |xs| ==> NonBlank(xs[i])
    ensures DropBlank(Strings(xs)) == Some(xs)
  {
    if xs != [] {
      var es := Strings(xs);
      DropBlankIdempotent(xs[1..]);
      assert es[1..] == Strings(xs[1..]);
      var rest := DropBlank(es[1..]);
      assert rest == Some(xs[1..]);
      assert es[0] == JString(xs[0]);
      assert [xs[0]] + rest.value == xs;
    }
  }

  /** What a STATUS_UPDATE writes to `phoneBook`: `None` leaves it unchanged
      (no phone book given, or the filter threw). */
  function PhoneBookUpdate(b: Body, rt: Runtime): (r: Option<seq<string>>)
    ensures !PhoneBookGiven(b.phoneBook) ==> r == None
    ensures PhoneBookGiven(b.phoneBook) ==>
              (r.Some? <==> forall i :: 0 <= i < |PhoneBookEntries(b.phoneBook, rt)| ==> !PhoneBookEntries(b.phoneBook, rt)[i].JOther?)
    ensures r.Some? ==> forall s :: s in r.value ==> NonBlank(s)
  {
    if PhoneBookGiven(b.phoneBook) then
      var es := PhoneBookEntries(b.phoneBook, rt);
      DropBlankSpec(es);
      DropBlank(es)
    else None
  }

  /** A phone-book text that cannot be decoded and parsed to an array is kept
      as the single entry `[raw]`, which the filter then drops if it is blank. */
  lemma PhoneBookFallback(b: Body, rt: Runtime)
    requires b.phoneBook.Text? && Truthy(b.phoneBook.raw)
    requires var d := rt.decodeUriComponent(b.phoneBook.raw);
             d.None? || !(rt.jsonParse(d.value).Some? && rt.jsonParse(d.value).value.JArray?)
    ensures PhoneBookUpdate(b, rt) == Some(if Blank(b.phoneBook.raw) then [] else [b.phoneBook.raw])
  {
    var raw := b.phoneBook.raw;
    var es := [JString(raw)];
    assert PhoneBookEntries(b.phoneBook, rt) == es;
    assert DropBlank(es[1..]) == Some([]);
    NonBlankIffNotBlank(raw);
    if NonBlank(raw) {
      assert [raw] + [] == [raw];
      assert DropBlank(es) == Some([raw]);
    } else {
      assert DropBlank(es) == Some([]);
    }
  }

  /** An array of strings is stored with its blank entries removed and the
      others kept in order. */
  lemma PhoneBookArray(b: Body, rt: Runtime, entries: seq<string>)
    requires b.phoneBook == List(Strings(entries))
    ensures PhoneBookUpdate(b, rt) == Some(NonBlankOnly(entries))
  {
    DropBlankStrings(entries);
  }

  /** A percent-encoded JSON array of strings is stored with its blank entries
      removed and the others kept in order. */
  lemma PhoneBookEncodedArray(b: Body, rt: Runtime, entries: seq<string>)
    requires b.phoneBook.Text? && Truthy(b.phoneBook.raw)
    requires var d := rt.decodeUriComponent(b.phoneBook.raw);
             d.Some? && rt.jsonParse(d.value) == Some(JArray(Strings(entries)))
    ensures PhoneBookUpdate(b, rt) == Some(NonBlankOnly(entries))
    ensures forall s :: s in PhoneBookUpdate(b, rt).value <==> s in entries && NonBlank(s)
  {
    var es := Strings(entries);
    DropBlankStrings(entries);
    assert PhoneBookEntries(b.phoneBook, rt) == es;
    DropBlankSpec(es);
    forall s ensures JString(s) in es <==> s in entries {
      if s in entries {
        var i :| 0 <= i < |entries| && entries[i] == s;
        assert es[i] == JString(s);
      }
    }
  }

  // ---------------------------------------------------------------------
  // Updates to machine records and the fan-out over a shared SIM
  // ---------------------------------------------------------------------

  /** The `updates` object given to `findByIdAndUpdate`: a device report
      (STATUS_UPDATE, or a report without a tag) or a finished JOB. */
  datatype Update =
    | Report(status: string, sensorStatus: string, location: string, phoneBook: Option<seq<string>>, at: Time)
    | JobDone(location: string, at: Time)

  function StatusReport(b: Body, rt: Runtime): Update {
    Report(b.status, b.sensorStatus, b.location, PhoneBookUpdate(b, rt), rt.now)
  }

  function GenericReport(b: Body, rt: Runtime): Update {
    Report(b.status, b.sensorStatus, b.location, None, rt.now)
  }

  function JobUpdate(b: Body, rt: Runtime): Update {
    JobDone(b.location, rt.now)
  }

  /** One record after an update: identity and configuration fields are never
      touched, the record is marked connected at the report's time, and an
      empty report field keeps the record's own value. */
  function Apply(m: Machine, u: Update): (r: Machine)
    ensures r.id == m.id && r.simNumber == m.simNumber
  {
    match u
    case Report(status, sensorStatus, location, phoneBook, at) =>
      m.(status := if Truthy(status) then status else m.status,
         serverConnection := Online,
         lastStatusUpdate := Some(at),
         sensorStatus := if Truthy(sensorStatus) then sensorStatus else m.sensorStatus,
         location := if Truthy(location) then location else m.location,
         phoneBook := if phoneBook.Some? then phoneBook.value else m.phoneBook)
    case JobDone(location, at) =>
      m.(status := Online,
         serverConnection := Online,
         lastStatusUpdate := Some(at),
         location := if Truthy(location) then location else m.location)
  }

  /** What one update does to a record: identity and configuration fields are
      kept, the record is marked connected at the report's time, and an empty
      report field keeps the record's own value. */
  lemma ApplySpec(m: Machine, u: Update)
    ensures var r := Apply(m, u);
            && r.id == m.id && r.simNumber == m.simNumber && r.machineName == m.machineName
            && r.username == m.username && r.remarks == m.remarks && r.directoryNumbers == m.directoryNumbers
            && r.serverConnection == Online && r.lastStatusUpdate == Some(u.at)
            && r.location == (if Truthy(u.location) then u.location else m.location)
            && (u.JobDone? ==> r.status == Online && r.sensorStatus == m.sensorStatus && r.phoneBook == m.phoneBook)
            && (u.Report? ==> r.status == (if Truthy(u.status) then u.status else m.status))
            && (u.Report? ==> r.sensorStatus == (if Truthy(u.sensorStatus) then u.sensorStatus else m.sensorStatus))
            && (u.Report? ==> r.phoneBook == (if u.phoneBook.Some? then u.phoneBook.value else m.phoneBook))
  {
  }

  /** The positions of the records whose SIM is `sim`, ascending: what
      `Machine.find({ simNumber })` returns, in store order. */
  function MatchIndices(ms: seq<Machine>, sim: string): (ix: seq<nat>)
    ensures forall j :: 0 <= j < |ix| ==> ix[j] < |ms|
  {
    if ms == [] then []
    else
      var last := |ms| - 1;
      MatchIndices(ms[..last], sim) + (if ms[last].simNumber == sim then [last] else [])
  }

  /** `MatchIndices` lists exactly the positions whose SIM is `sim`, each
      once, in store order. */
  lemma {:induction false} MatchIndicesSpec(ms: seq<Machine>, sim: string)
    ensures forall i: nat :: i in MatchIndices(ms, sim) <==> i < |ms| && ms[i].simNumber == sim
    ensures Ascending(MatchIndices(ms, sim))
  {
    if ms != [] {
      var last := |ms| - 1;
      MatchIndicesSpec(ms[..last], sim);
      var prev := MatchIndices(ms[..last], sim);
      assert forall i :: 0 <= i < last ==> ms[..last][i] == ms[i];
      AscendingSnoc(prev, last);
    }
  }

  /** The first matched record is the first position of `MatchIndices`. */
  lemma FirstMatch(ms: seq<Machine>, sim: string, j: nat)
    requires j < |ms| && ms[j].simNumber == sim
    requires forall i :: 0 <= i < j ==> ms[i].simNumber != sim
    ensures MatchIndices(ms, sim) != [] && MatchIndices(ms, sim)[0] == j
  {
    var ix := MatchIndices(ms, sim);
    MatchIndicesSpec(ms, sim);
    assert j in ix;
    var p :| 0 <= p < |ix| && ix[p] == j;
    assert ix[0] in ix;
  }

  /** The store after the records matching `sim` at positions below `n` were
      updated with `u`. */
  function UpdateMatching(ms: seq<Machine>, sim: string, u: Update, n: int): (r: seq<Machine>)
    ensures |r| == |ms|
  {
    seq(|ms|, i requires 0 <= i < |ms| => if i < n && ms[i].simNumber == sim then Apply(ms[i], u) else ms[i])
  }

  /** Visiting position `n` updates that record alone, if it matches. */
  lemma UpdateMatchingStep(ms: seq<Machine>, sim: string, u: Update, n: nat)
    requires n < |ms|
    ensures UpdateMatching(ms, sim, u, n)[n] == ms[n]
    ensures UpdateMatching(ms, sim, u, n + 1)
         == UpdateMatching(ms, sim, u, n)[n := if ms[n].simNumber == sim then Apply(ms[n], u) else ms[n]]
  {
  }

  /** Every record that shares the SIM updated identically; the others untouched. */
  function FanOut(ms: seq<Machine>, sim: string, u: Update): seq<Machine> {
    UpdateMatching(ms, sim, u, |ms|)
  }

  /** The fan-out updates exactly the records `find({ simNumber })` returns and
      leaves every other record as it was. */
  lemma FanOutSpec(ms: seq<Machine>, sim: string, u: Update)
    ensures |FanOut(ms, sim, u)| == |ms|
    ensures forall i :: 0 <= i < |ms| && i in MatchIndices(ms, sim) ==> FanOut(ms, sim, u)[i] == Apply(ms[i], u)
    ensures forall i :: 0 <= i < |ms| && i !in MatchIndices(ms, sim) ==> FanOut(ms, sim, u)[i] == ms[i]
  {
    MatchIndicesSpec(ms, sim);
  }

  /** Records with the same SIM numbers, position by position, match the same positions. */
  lemma {:induction false} SameSimsSameMatches(a: seq<Machine>, b: seq<Machine>, sim: string)
    requires |a| == |b| && forall i :: 0 <= i < |a| ==> a[i].simNumber == b[i].simNumber
    ensures MatchIndices(a, sim) == MatchIndices(b, sim)
  {
    if a != [] {
      SameSimsSameMatches(a[..|a| - 1], b[..|b| - 1], sim);
    }
  }

  /** The fan-out keeps which records share the SIM, and the same update,
      its time included, applied twice leaves the store as one application did. */
  lemma FanOutIdempotent(ms: seq<Machine>, sim: string, u: Update)
    ensures MatchIndices(FanOut(ms, sim, u), sim) == MatchIndices(ms, sim)
    ensures FanOut(FanOut(ms, sim, u), sim, u) == FanOut(ms, sim, u)
  {
    var once := FanOut(ms, sim, u);
    SameSimsSameMatches(once, ms, sim);
    var twice := FanOut(once, sim, u);
    forall i | 0 <= i < |ms| ensures twice[i] == once[i] {
      if ms[i].simNumber == sim {
        assert Apply(Apply(ms[i], u), u) == Apply(ms[i], u);
      }
    }
  }

  // ---------------------------------------------------------------------
  // Operation records
  // ---------------------------------------------------------------------

  /** The fields an operation record takes from a report. */
  datatype OpTemplate = OpTemplate(dateTime: Time, fuelConsumption: real, pressure: real, processTime: int, location: string)

  function OperationFor(id: MachineId, t: OpTemplate): Operation {
    Operation(id, t.dateTime, t.fuelConsumption, t.pressure, t.processTime, t.location)
  }

  /** The JOB branch's record: a missing or unparsable number becomes 0 and a
      missing location "Unknown". */
  function JobTemplate(b: Body, rt: Runtime): (t: OpTemplate)
    ensures t.dateTime == rt.now
    ensures t.fuelConsumption == match FloatField(rt, b.fuelConsumption) case Some(x) => x case None => 0.0
    ensures t.pressure == match FloatField(rt, b.pressure) case Some(x) => x case None => 0.0
    ensures t.processTime == match IntField(rt, b.processTime) case Some(x) => x case None => 0
    ensures !Truthy(b.fuelConsumption) ==> t.fuelConsumption == 0.0
    ensures !Truthy(b.pressure) ==> t.pressure == 0.0
    ensures !Truthy(b.processTime) ==> t.processTime == 0
    ensures t.location == if Truthy(b.location) then b.location else UnknownLocation
    ensures Truthy(t.location)
  {
    OpTemplate(rt.now,
               FloatField(rt, b.fuelConsumption).GetOr(0.0),
               FloatField(rt, b.pressure).GetOr(0.0),
               IntField(rt, b.processTime).GetOr(0),
               if Truthy(b.location) then b.location else UnknownLocation)
  }

  /** `job && fuelConsumption && pressure && processTime`. */
  predicate JobDataGiven(b: Body) {
    Truthy(b.job) && Truthy(b.fuelConsumption) && Truthy(b.pressure) && Truthy(b.processTime)
  }

  /** The untagged report's record: the numbers are parsed without defaults,
      and `None` when one is NaN (the store refuses NaN for a Number field). */
  function GenericTemplate(b: Body, rt: Runtime): (t: Option<OpTemplate>)
    ensures t.Some? <==> FloatField(rt, b.fuelConsumption).Some? && FloatField(rt, b.pressure).Some?
                         && IntField(rt, b.processTime).Some?
    ensures t.Some? ==> (&& t.value.fuelConsumption == FloatField(rt, b.fuelConsumption).value
                         && t.value.pressure == FloatField(rt, b.pressure).value
                         && t.value.processTime == IntField(rt, b.processTime).value
                         && t.value.dateTime == rt.now
                         && t.value.location == (if Truthy(b.location) then b.location else UnknownLocation)
                         && Truthy(t.value.location))
  {
    match (FloatField(rt, b.fuelConsumption), FloatField(rt, b.pressure), IntField(rt, b.processTime))
    case (Some(f), Some(p), Some(n)) =>
      Some(OpTemplate(rt.now, f, p, n, if Truthy(b.location) then b.location else UnknownLocation))
    case _ => None
  }

  /** One operation record per listed position, in that order. */
  function OperationsFor(ms: seq<Machine>, ix: seq<nat>, t: OpTemplate): (ops: seq<Operation>)
    requires forall j :: 0 <= j < |ix| ==> ix[j] < |ms|
    ensures |ops| == |ix|
  {
    seq(|ix|, j requires 0 <= j < |ix| => OperationFor(ms[ix[j]].id, t))
  }

  /** The operations logged while the records at positions below `n` are
      visited in store order. */
  function LoggedUpTo(ms: seq<Machine>, sim: string, t: OpTemplate, n: int): seq<Operation>
    requires n <= |ms|
    decreases if n < 0 then 0 else n
  {
    if n <= 0 then []
    else LoggedUpTo(ms, sim, t, n - 1) + (if ms[n - 1].simNumber == sim then [OperationFor(ms[n - 1].id, t)] else [])
  }

  /** Visiting the records in turn logs one operation per matched position,
      in the order of `MatchIndices`. */
  lemma {:induction false} LoggedUpToMatches(ms: seq<Machine>, sim: string, t: OpTemplate, n: nat)
    requires n <= |ms|
    ensures LoggedUpTo(ms, sim, t, n) == OperationsFor(ms, MatchIndices(ms[..n], sim), t)
  {
    if n > 0 {
      LoggedUpToMatches(ms, sim, t, n - 1);
      assert ms[..n][..n - 1] == ms[..n - 1];
      var prev := MatchIndices(ms[..n - 1], sim);
      if ms[n - 1].simNumber == sim {
        AppendOperation(ms, prev, n - 1, t);
      }
    }
  }

  /** A JOB for a SIM shared by k records logs exactly k operations: the j-th
      belongs to the j-th matched record in store order, each record gets one,
      and each carries the JOB's values with their defaults. */
  lemma JobLogsOnePerMachine(ms: seq<Machine>, sim: string, b: Body, rt: Runtime)
    ensures var ix := MatchIndices(ms, sim);
            var ops := OperationsFor(ms, ix, JobTemplate(b, rt));
            && |ops| == |ix|
            && (forall i :: 0 <= i < |ms| && ms[i].simNumber == sim ==>
                  exists j :: 0 <= j < |ops| && ix[j] == i && ops[j].machineId == ms[i].id)
            && (forall j :: 0 <= j < |ops| ==> ms[ix[j]].simNumber == sim && ops[j].machineId == ms[ix[j]].id)
            && (forall j :: 0 <= j < |ops| ==> ops[j].location != "" && ops[j].dateTime == rt.now)
  {
    var ix := MatchIndices(ms, sim);
    MatchIndicesSpec(ms, sim);
    var ops := OperationsFor(ms, ix, JobTemplate(b, rt));
    forall i | 0 <= i < |ms| && ms[i].simNumber == sim
      ensures exists j :: 0 <= j < |ops| && ix[j] == i && ops[j].machineId == ms[i].id
    {
      assert i in ix;
      var j :| 0 <= j < |ix| && ix[j] == i;
      assert ops[j].machineId == ms[i].id;
    }
    forall j | 0 <= j < |ops| ensures ms[ix[j]].simNumber == sim {
      assert ix[j] in ix;
    }
  }

  // ---------------------------------------------------------------------
  // The poll response
  // ---------------------------------------------------------------------

  const NoMessages: string := "status=no_messages"
  const DefaultSim: string := "default"

  /** `req.query.simNumber || 'default'`. */
  function PollSim(simParam: string): (sim: string)
    ensures Truthy(sim)
    ensures Truthy(simParam) ==> sim == simParam
    ensures !Truthy(simParam) ==> sim == DefaultSim
  {
    if Truthy(simParam) then simParam else DefaultSim
  }

  /** The fields the poll appends: `message<i>` and `timestamp<i>` for
      i = 1..n, each pair in queue order. */
  function MessagePairs(msgs: seq<QueuedMessage>): seq<(string, string)>
  {
    if msgs == [] then []
    else
      var n := |msgs|;
      MessagePairs(msgs[..n - 1])
        + [("message" + Decimal(n), msgs[n - 1].message), ("timestamp" + Decimal(n), msgs[n - 1].timestamp)]
  }

  /** Two fields per message, numbered from 1 in queue order: `message<i>`
      holds the command and `timestamp<i>` the time it was queued. */
  lemma {:induction false} MessagePairsSpec(msgs: seq<QueuedMessage>)
    ensures |MessagePairs(msgs)| == 2 * |msgs|
    ensures forall i :: 0 <= i < |msgs| ==>
              MessagePairs(msgs)[2 * i] == ("message" + Decimal(i + 1), msgs[i].message)
              && MessagePairs(msgs)[2 * i + 1] == ("timestamp" + Decimal(i + 1), msgs[i].timestamp)
  {
    if msgs != [] {
      var n := |msgs|;
      MessagePairsSpec(msgs[..n - 1]);
      assert forall i :: 0 <= i < n - 1 ==> msgs[..n - 1][i] == msgs[i];
    }
  }

  /** The `formData.append` loop over the drained messages. */
  method AppendMessagePairs(msgs: seq<QueuedMessage>) returns (pairs: seq<(string, string)>)
    ensures pairs == MessagePairs(msgs)
  {
    pairs := [];
    var index := 0;
    while index < |msgs|
      invariant 0 <= index <= |msgs|
      invariant pairs == MessagePairs(msgs[..index])
    {
      assert msgs[..index + 1][..index] == msgs[..index];
      pairs := pairs + [("message" + Decimal(index + 1), msgs[index].message)];
      pairs := pairs + [("timestamp" + Decimal(index + 1), msgs[index].timestamp)];
      index := index + 1;
    }
    assert msgs[..index] == msgs;
  }

  /** `name=value` with both sides form-encoded. */
  function FormField(p: (string, string), enc: string -> string): string {
    enc(p.0) + "=" + enc(p.1)
  }

  /** `URLSearchParams.toString()`: the fields joined with `&`. */
  function Serialize(pairs: seq<(string, string)>, enc: string -> string): string {
    if pairs == [] then ""
    else if |pairs| == 1 then FormField(pairs[0], enc)
    else FormField(pairs[0], enc) + "&" + Serialize(pairs[1..], enc)
  }

  /** The record with identifier `id`, as `findById` returns it. */
  function FindById(ms: seq<Machine>, id: MachineId): (r: Option<Machine>)
    ensures r.None? <==> forall i :: 0 <= i < |ms| ==> ms[i].id != id
    ensures r.Some? ==> r.value in ms && r.value.id == id
  {
    if ms == [] then None
    else if ms[0].id == id then Some(ms[0])
    else FindById(ms[1..], id)
  }

  // ---------------------------------------------------------------------
  // The handlers, over the store, the queue and the freshness marker
  // ---------------------------------------------------------------------

  class Controller {
    /** The machine collection, in store order. */
    var machines: seq<Machine>
    /** The operation log, oldest first. */
    var operations: seq<Operation>
    /** `global.lastDataUpdateTime`. */
    var lastDataUpdateTime: Time
    /** The process-wide queue singleton. */
    const queue: MessageQueue

    ghost predicate Valid()
      reads this, queue
    {
      queue.Valid()
    }

    /** Process start: the freshness marker is the start time, the queue empty. */
    constructor (machines0: seq<Machine>, operations0: seq<Operation>, startedAt: Time)
      ensures Valid() && fresh(queue) && queue.queue == map[]
      ensures machines == machines0 && operations == operations0 && lastDataUpdateTime == startedAt
    {
      machines := machines0;
      operations := operations0;
      lastDataUpdateTime := startedAt;
      queue := new MessageQueue();
    }

    /** Updates every record whose SIM is `sim` with `u`, in store order. */
    method UpdateMatches(sim: string, u: Update)
      modifies this
      ensures machines == FanOut(old(machines), sim, u)
      ensures operations == old(operations) && lastDataUpdateTime == old(lastDataUpdateTime)
    {
      var j := 0;
      while j < |machines|
        invariant 0 <= j <= |machines| == |old(machines)|
        invariant machines == UpdateMatching(old(machines), sim, u, j)
        invariant operations == old(operations) && lastDataUpdateTime == old(lastDataUpdateTime)
      {
        if machines[j].simNumber == sim {
          machines := machines[j := Apply(machines[j], u)];
        }
        j := j + 1;
      }
    }

    /** Logs one operation from `t` for every record whose SIM is `sim`, in store order. */
    method LogMatches(sim: string, t: OpTemplate)
      modifies this
      ensures operations == old(operations) + OperationsFor(old(machines), MatchIndices(old(machines), sim), t)
      ensures machines == old(machines) && lastDataUpdateTime == old(lastDataUpdateTime)
    {
      var j := 0;
      while j < |machines|
        invariant 0 <= j <= |machines|
        invariant machines == old(machines) && lastDataUpdateTime == old(lastDataUpdateTime)
        invariant operations == old(operations) + LoggedUpTo(machines, sim, t, j)
      {
        if machines[j].simNumber == sim {
          operations := operations + [OperationFor(machines[j].id, t)];
        }
        j := j + 1;
      }
      LoggedUpToMatches(machines, sim, t, j);
      assert machines[..j] == machines;
    }

    /** The STATUS_UPDATE branch. */
    method HandleStatusUpdate(b: Body, rt: Runtime) returns (resp: Response)
      requires Valid() && Truthy(b.simNumber)
      modifies this
      ensures Valid() && operations == old(operations)
      ensures MatchIndices(old(machines), b.simNumber) == [] ==>
                resp == Reply(404, "No machines found with this SIM number")
                && machines == old(machines) && lastDataUpdateTime == old(lastDataUpdateTime)
      ensures MatchIndices(old(machines), b.simNumber) != [] ==>
                resp == Reply(200, "STATUS_UPDATE processed successfully")
                && machines == FanOut(old(machines), b.simNumber, StatusReport(b, rt))
                && lastDataUpdateTime == rt.now
    {
      if MatchIndices(machines, b.simNumber) == [] {
        return Reply(404, "No machines found with this SIM number");
      }
      UpdateMatches(b.simNumber, StatusReport(b, rt));
      lastDataUpdateTime := rt.now;
      resp := Reply(200, "STATUS_UPDATE processed successfully");
    }

    /** The JOB branch: one operation per matched record, then every matched
        record marked ONLINE. */
    method HandleJob(b: Body, rt: Runtime) returns (resp: Response)
      requires Valid() && Truthy(b.simNumber)
      modifies this
      ensures Valid()
      ensures MatchIndices(old(machines), b.simNumber) == [] ==>
                resp == Reply(404, "No machines found with this SIM number")
                && machines == old(machines) && operations == old(operations)
                && lastDataUpdateTime == old(lastDataUpdateTime)
      ensures MatchIndices(old(machines), b.simNumber) != [] ==>
                resp == Reply(200, "JOB data processed successfully")
                && operations == old(operations)
                   + OperationsFor(old(machines), MatchIndices(old(machines), b.simNumber), JobTemplate(b, rt))
                && machines == FanOut(old(machines), b.simNumber, JobUpdate(b, rt))
                && lastDataUpdateTime == rt.now
    {
      if MatchIndices(machines, b.simNumber) == [] {
        return Reply(404, "No machines found with this SIM number");
      }
      LogMatches(b.simNumber, JobTemplate(b, rt));
      UpdateMatches(b.simNumber, JobUpdate(b, rt));
      lastDataUpdateTime := rt.now;
      resp := Reply(200, "JOB data processed successfully");
    }

    /** The untagged report's loop with full, well-formed job data: each
        matched record is updated and then gets its operation. */
    method UpdateAndLogMatches(sim: string, u: Update, t: OpTemplate)
      modifies this
      ensures machines == FanOut(old(machines), sim, u)
      ensures operations == old(operations) + OperationsFor(old(machines), MatchIndices(old(machines), sim), t)
      ensures lastDataUpdateTime == old(lastDataUpdateTime)
    {
      var found := machines;
      var store, log := machines, operations;
      var j := 0;
      while j < |found|
        invariant 0 <= j <= |found|
        invariant store == UpdateMatching(found, sim, u, j)
        invariant log == operations + LoggedUpTo(found, sim, t, j)
        invariant unchanged(this)
      {
        store, log := ReportStep(found, sim, u, t, j, store, log);
        j := j + 1;
      }
      LoggedUpToMatches(found, sim, t, j);
      assert found[..j] == found;
      machines, operations := store, log;
    }

    /** The untagged report's loop when job data is given but a number is NaN:
        the first matched record is updated, then its insert fails. */
    method UpdateFirstMatchThenFail(sim: string, u: Update)
      requires MatchIndices(machines, sim) != []
      modifies this
      ensures machines == UpdateMatching(old(machines), sim, u, MatchIndices(old(machines), sim)[0] + 1)
      ensures operations == old(operations) && lastDataUpdateTime == old(lastDataUpdateTime)
    {
      ghost var ix := MatchIndices(machines, sim);
      MatchIndicesSpec(machines, sim);
      assert ix[0] in ix;
      var j := 0;
      while j < |machines|
        invariant 0 <= j <= |machines| == |old(machines)|
        invariant machines == old(machines)
        invariant forall i :: 0 <= i < j ==> machines[i].simNumber != sim
        invariant operations == old(operations) && lastDataUpdateTime == old(lastDataUpdateTime)
      {
        if machines[j].simNumber == sim {
          FirstMatch(machines, sim, j);
          machines := machines[j := Apply(machines[j], u)];
          return;
        }
        j := j + 1;
      }
    }

    /** The branch for a report without a recognised tag. A report for an
        unknown SIM is acknowledged and changes nothing. With full job data,
        each matched record is updated and then gets an operation; a NaN number
        makes the first insert fail, after the first matched record was updated. */
    method HandleReport(b: Body, rt: Runtime) returns (resp: Response)
      requires Valid() && Truthy(b.simNumber)
      modifies this
      ensures Valid()
      ensures MatchIndices(old(machines), b.simNumber) == [] ==>
                resp == Reply(200, "Data received successfully")
                && machines == old(machines) && operations == old(operations)
                && lastDataUpdateTime == old(lastDataUpdateTime)
      ensures MatchIndices(old(machines), b.simNumber) != [] && JobDataGiven(b) && GenericTemplate(b, rt).None? ==>
                resp == Reply(500, "Error processing data")
                && machines == UpdateMatching(old(machines), b.simNumber, GenericReport(b, rt),
                                              MatchIndices(old(machines), b.simNumber)[0] + 1)
                && operations == old(operations) && lastDataUpdateTime == old(lastDataUpdateTime)
      ensures MatchIndices(old(machines), b.simNumber) != [] && !JobDataGiven(b) ==>
                resp == Reply(200, "Data received successfully")
                && machines == FanOut(old(machines), b.simNumber, GenericReport(b, rt))
                && operations == old(operations) && lastDataUpdateTime == rt.now
      ensures MatchIndices(old(machines), b.simNumber) != [] && JobDataGiven(b) && GenericTemplate(b, rt).Some? ==>
                resp == Reply(200, "Data received successfully")
                && machines == FanOut(old(machines), b.simNumber, GenericReport(b, rt))
                && operations == old(operations)
                   + OperationsFor(old(machines), MatchIndices(old(machines), b.simNumber), GenericTemplate(b, rt).value)
                && lastDataUpdateTime == rt.now
    {
      var sim := b.simNumber;
      if MatchIndices(machines, sim) == [] {
        return Reply(200, "Data received successfully");
      }
      var u := GenericReport(b, rt);
      if !JobDataGiven(b) {
        UpdateMatches(sim, u);
      } else {
        var t := GenericTemplate(b, rt);
        if t.None? {
          UpdateFirstMatchThenFail(sim, u);
          return Reply(500, "Error processing data");
        }
        UpdateAndLogMatches(sim, u, t.value);
      }
      lastDataUpdateTime := rt.now;
      resp := Reply(200, "Data received successfully");
    }

    /** `receiveData`: dispatch on the tag and the SIM. */
    method ReceiveData(b: Body, rt: Runtime) returns (resp: Response)
      requires Valid()
      modifies this, queue
      ensures Valid()
      ensures Classify(b) == GetStatus ==>
                resp == Reply(200, "Get status command queued successfully")
                && queue.queue == old(queue.queue)[b.simNumber := Appended(old(queue.Pending(b.simNumber)), QueuedMessage(GetStatusCommand, rt.now))]
                && machines == old(machines) && operations == old(operations) && lastDataUpdateTime == rt.now
      ensures Classify(b) == DirUpdate ==>
                resp == Reply(200, "Directory update command queued successfully")
                && queue.queue == old(queue.queue)[b.simNumber := Appended(old(queue.Pending(b.simNumber)), QueuedMessage(DirUpdatePayload(b, rt), rt.now))]
                && machines == old(machines) && operations == old(operations) && lastDataUpdateTime == rt.now
      ensures Classify(b) == MissingSim ==>
                resp == Reply(400, "SIM number is required")
                && queue.queue == old(queue.queue) && machines == old(machines)
                && operations == old(operations) && lastDataUpdateTime == old(lastDataUpdateTime)
      ensures Classify(b) in {StatusUpdate, Job, Generic} ==> queue.queue == old(queue.queue)
      ensures Classify(b) in {StatusUpdate, Job} && MatchIndices(old(machines), b.simNumber) == [] ==>
                resp == Reply(404, "No machines found with this SIM number")
                && machines == old(machines) && operations == old(operations)
                && lastDataUpdateTime == old(lastDataUpdateTime)
      ensures Classify(b) == StatusUpdate && MatchIndices(old(machines), b.simNumber) != [] ==>
                resp == Reply(200, "STATUS_UPDATE processed successfully")
                && machines == FanOut(old(machines), b.simNumber, StatusReport(b, rt))
                && operations == old(operations) && lastDataUpdateTime == rt.now
      ensures Classify(b) == Job && MatchIndices(old(machines), b.simNumber) != [] ==>
                resp == Reply(200, "JOB data processed successfully")
                && operations == old(operations)
                   + OperationsFor(old(machines), MatchIndices(old(machines), b.simNumber), JobTemplate(b, rt))
                && machines == FanOut(old(machines), b.simNumber, JobUpdate(b, rt))
                && lastDataUpdateTime == rt.now
      ensures Classify(b) == Generic && MatchIndices(old(machines), b.simNumber) == [] ==>
                resp == Reply(200, "Data received successfully")
                && machines == old(machines) && operations == old(operations)
                && lastDataUpdateTime == old(lastDataUpdateTime)
      ensures Classify(b) == Generic && MatchIndices(old(machines), b.simNumber) != [] ==>
                resp.status in {200, 500}
                && (resp.status == 500 <==> JobDataGiven(b) && GenericTemplate(b, rt).None?)
    {
      match Classify(b)
      case GetStatus =>
        var _ := queue.AddMessage(b.simNumber, GetStatusCommand, rt.now);
        lastDataUpdateTime := rt.now;
        resp := Reply(200, "Get status command queued successfully");
      case DirUpdate =>
        var payload := BuildDirUpdate(b, rt);
        var _ := queue.AddMessage(b.simNumber, payload, rt.now);
        lastDataUpdateTime := rt.now;
        resp := Reply(200, "Directory update command queued successfully");
      case StatusUpdate =>
        resp := HandleStatusUpdate(b, rt);
      case Job =>
        resp := HandleJob(b, rt);
      case MissingSim =>
        resp := Reply(400, "SIM number is required");
      case Generic =>
        resp := HandleReport(b, rt);
    }

    /** `sendCommands`: serve and drain the polling SIM's queue. */
    method SendCommands(simParam: string, rt: Runtime) returns (resp: Response)
      requires Valid()
      modifies queue
      ensures Valid()
      ensures var sim := PollSim(simParam);
              var pending := old(queue.Pending(sim));
              if pending != [] then
                resp == Response(200, FormUrlEncoded, Serialize(MessagePairs(pending), rt.formEncode))
                && queue.queue == old(queue.queue)[sim := []]
              else
                resp == Response(200, FormUrlEncoded, NoMessages) && queue.queue == old(queue.queue)
    {
      var sim := PollSim(simParam);
      var has := queue.HasMessages(sim);
      if has {
        var messages := queue.GetMessages(sim);
        var formData := AppendMessagePairs(messages);
        var _ := queue.ClearMessages(sim);
        resp := Response(200, FormUrlEncoded, Serialize(formData, rt.formEncode));
      } else {
        resp := Response(200, FormUrlEncoded, NoMessages);
      }
    }

    /** `requestStatus`: queue a status request for the SIM of a known machine. */
    method RequestStatus(machineId: MachineId, rt: Runtime) returns (resp: Response)
      requires Valid()
      modifies queue
      ensures Valid()
      ensures FindById(machines, machineId).None? ==>
                resp == Reply(404, "Machine not found") && queue.queue == old(queue.queue)
      ensures FindById(machines, machineId).Some? && !Truthy(FindById(machines, machineId).value.simNumber) ==>
                resp == Reply(400, "Machine has no SIM number") && queue.queue == old(queue.queue)
      ensures FindById(machines, machineId).Some? && Truthy(FindById(machines, machineId).value.simNumber) ==>
                var sim := FindById(machines, machineId).value.simNumber;
                resp == Reply(200, "Status request sent")
                && queue.queue == old(queue.queue)[sim := Appended(old(queue.Pending(sim)), QueuedMessage(GetStatusCommand, rt.now))]
    {
      var machine := FindById(machines, machineId);
      if machine.None? {
        return Reply(404, "Machine not found");
      }
      var sim := machine.value.simNumber;
      if !Truthy(sim) {
        return Reply(400, "Machine has no SIM number");
      }
      var _ := queue.AddMessage(sim, GetStatusCommand, rt.now);
      resp := Reply(200, "Status request sent");
    }
  }

  /** One pass of the untagged report's loop over the found records. */
  method ReportStep(found: seq<Machine>, sim: string, u: Update, t: OpTemplate, j: nat,
                    store: seq<Machine>, log: seq<Operation>)
    returns (store': seq<Machine>, log': seq<Operation>)
    requires j < |found| && store == UpdateMatching(found, sim, u, j)
    ensures store' == UpdateMatching(found, sim, u, j + 1)
    ensures log' == log + (if found[j].simNumber == sim then [OperationFor(found[j].id, t)] else [])
  {
    UpdateMatchingStep(found, sim, u, j);
    store', log' := store, log;
    var machine := found[j];
    if machine.simNumber == sim {
      store' := store[j := Apply(machine, u)];
      log' := log + [OperationFor(machine.id, t)];
    }
  }

  /** Extending the matched positions by one more extends the log by its record. */
  lemma AppendOperation(ms: seq<Machine>, ix: seq<nat>, j: nat, t: OpTemplate)
    requires j < |ms| && forall k :: 0 <= k < |ix| ==> ix[k] < |ms|
    ensures OperationsFor(ms, ix + [j], t) == OperationsFor(ms, ix, t) + [OperationFor(ms[j].id, t)]
  {
    assert (ix + [j])[..|ix|] == ix;
  }

  /** An operator's get_status followed by two polls: the first poll drains
      the queue and its last field pair is the status request; the second
      finds nothing. */
  method StatusRequestThenTwoPolls(c: Controller, sim: string, rt: Runtime) returns (first: Response, second: Response)
    requires c.Valid() && Truthy(sim)
    modifies c, c.queue
    ensures c.Valid() && c.queue.Pending(sim) == []
    ensures var drained := Appended(old(c.queue.Pending(sim)), QueuedMessage(GetStatusCommand, rt.now));
            var pairs := MessagePairs(drained);
            && first == Response(200, FormUrlEncoded, Serialize(pairs, rt.formEncode))
            && |pairs| >= 2
            && pairs[|pairs| - 2] == ("message" + Decimal(|drained|), GetStatusCommand)
            && pairs[|pairs| - 1] == ("timestamp" + Decimal(|drained|), rt.now)
    ensures second == Response(200, FormUrlEncoded, NoMessages)
  {
    ghost var drained := Appended(c.queue.Pending(sim), QueuedMessage(GetStatusCommand, rt.now));
    AppendedSpec(c.queue.Pending(sim), QueuedMessage(GetStatusCommand, rt.now));
    MessagePairsSpec(drained);
    var body := Body("get_status", sim, "", "", "", "", "", "", "", "", map[], Text(""));
    var ack := c.ReceiveData(body, rt);
    assert c.queue.Pending(sim) == drained != [];
    first := c.SendCommands(sim, rt);
    second := c.SendCommands(sim, rt);
  }
}
