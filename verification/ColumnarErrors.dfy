/** The errors in the response to a columnar query. */
module ColumnarErrors {
  import opened Options

  /** A member of a JSON object: it may be absent or of another type than expected. */
  datatype Member<T> = Absent | OtherType | Present(value: T)

  datatype Entry = Entry(retriable: Member<bool>, msg: Member<string>, code: Member<int>)

  datatype Errors = NoErrors | NotAnArray | List(entries: seq<Entry>)

  datatype Code = Generic | InvalidCredential | QueryError | Timeout

  datatype Properties = Properties(code: int, msg: string)

  /** No error, or one with its code, the errors it lists, and for a query error the one reported. */
  datatype Verdict = Verdict(error: Option<Code>, listed: seq<Properties>, reported: Option<Properties>,
                             retriable: bool)

  const MALFORMED: Verdict := Verdict(Some(Generic), [], None, false)

  /** Narrowing to a signed 32-bit number. */
  function Narrow(n: int): (r: int)
    ensures -0x8000_0000 <= r < 0x8000_0000 && (n - r) % 0x1_0000_0000 == 0
  {
    (n + 0x8000_0000) % 0x1_0000_0000 - 0x8000_0000
  }

  predicate WellFormed(e: Entry) {
    !e.retriable.OtherType? && e.msg.Present? && e.code.Present?
  }

  /** A missing flag counts as not retriable. */
  predicate Retriable(e: Entry) {
    e.retriable == Present(true)
  }

  function Shown(e: Entry): Properties
    requires WellFormed(e)
  {
    Properties(Narrow(e.code.value), e.msg.value)
  }

  ghost predicate AllWellFormed(entries: seq<Entry>) {
    forall i :: 0 <= i < |entries| ==> WellFormed(entries[i])
  }

  ghost predicate AllRetriable(entries: seq<Entry>) {
    forall i :: 0 <= i < |entries| ==> Retriable(entries[i])
  }

  function AllShown(entries: seq<Entry>): seq<Properties>
    requires AllWellFormed(entries)
  {
    seq(|entries|, i requires 0 <= i < |entries| => Shown(entries[i]))
  }

  /** The last entry with a telling code decides; without one the status of the response does. */
  function CodeOf(status: nat, entries: seq<Entry>): Code
    requires AllWellFormed(entries)
  {
    if entries == [] then if status == 401 then InvalidCredential else QueryError
    else
      match Shown(entries[|entries| - 1]).code
      case 20000 => InvalidCredential
      case 21002 => Timeout
      case _ => CodeOf(status, entries[..|entries| - 1])
  }

  /**
   What the variable for the first error, or for the first that is not retriable, holds after the entries.
   It counts as unset while its code is zero.
   */
  function FirstSet(entries: seq<Entry>, any: bool): Properties
    requires AllWellFormed(entries)
  {
    if entries == [] then Properties(0, "")
    else
      var p, e := FirstSet(entries[..|entries| - 1], any), entries[|entries| - 1];
      if (any || !Retriable(e)) && p.code == 0 then Shown(e) else p
  }

  function Reported(entries: seq<Entry>): Properties
    requires AllWellFormed(entries)
  {
    if FirstSet(entries, false).code != 0 then FirstSet(entries, false) else FirstSet(entries, true)
  }

  function Judge(status: nat, entries: seq<Entry>): Verdict
    requires AllWellFormed(entries)
  {
    var code := CodeOf(status, entries);
    Verdict(Some(code), AllShown(entries), if code.QueryError? then Some(Reported(entries)) else None,
            forall i :: 0 <= i < |entries| ==> Retriable(entries[i]))
  }

  method ParseError(status: nat, errors: Errors) returns (v: Verdict)
    ensures errors.NoErrors? || errors == List([]) ==> v == Verdict(None, [], None, false)
    ensures errors.NotAnArray? ==> v == MALFORMED
    ensures errors.List? && !AllWellFormed(errors.entries) ==> v == MALFORMED
    ensures errors.List? && errors.entries != [] && AllWellFormed(errors.entries) ==> v == Judge(status, errors.entries)
  {
    if errors.NoErrors? || errors == List([]) {
      return Verdict(None, [], None, false);
    }
    if errors.NotAnArray? {
      return MALFORMED;
    }
    var entries := errors.entries;
    var retriable := true;
    var listed: seq<Properties> := [];
    var code := if status == 401 then InvalidCredential else QueryError;
    var first, nonRetriable := Properties(0, ""), Properties(0, "");
    for i := 0 to |entries|
      invariant AllWellFormed(entries[..i])
      invariant retriable <==> AllRetriable(entries[..i])
      invariant listed == AllShown(entries[..i])
      invariant code == CodeOf(status, entries[..i])
      invariant first == FirstSet(entries[..i], true) && nonRetriable == FirstSet(entries[..i], false)
    {
      var e := entries[i];
      if e.retriable.OtherType? || !e.msg.Present? || !e.code.Present? {
        return MALFORMED;
      }
      var p := Shown(e);
      assert entries[..i + 1][..i] == entries[..i] && entries[..i + 1][i] == e;
      retriable := retriable && Retriable(e);
      listed := listed + [p];
      if first.code == 0 {
        first := p;
      }
      if !Retriable(e) && nonRetriable.code == 0 {
        nonRetriable := p;
      }
      if p.code == 20000 {
        code := InvalidCredential;
      } else if p.code == 21002 {
        code := Timeout;
      }
    }
    assert entries[..|entries|] == entries;
    var reported := if nonRetriable.code != 0 then nonRetriable else first;
    v := Verdict(Some(code), listed, if code.QueryError? then Some(reported) else None, retriable);
  }

  /** The last entry with code 20000 or 21002 decides, whatever the status. */
  lemma {:induction false} LastTellingCode(status: nat, entries: seq<Entry>, i: nat)
    requires AllWellFormed(entries) && i < |entries| && Shown(entries[i]).code in {20000, 21002}
    requires forall j :: i < j < |entries| ==> Shown(entries[j]).code !in {20000, 21002}
    ensures CodeOf(status, entries) == if Shown(entries[i]).code == 20000 then InvalidCredential else Timeout
  {
    if i < |entries| - 1 {
      LastTellingCode(status, entries[..|entries| - 1], i);
    }
  }

  /** Without one, it is the status that tells credentials from the query. */
  lemma {:induction false} NoTellingCode(status: nat, entries: seq<Entry>)
    requires AllWellFormed(entries)
    requires forall j :: 0 <= j < |entries| ==> Shown(entries[j]).code !in {20000, 21002}
    ensures CodeOf(status, entries) == if status == 401 then InvalidCredential else QueryError
  {
    if entries != [] {
      NoTellingCode(status, entries[..|entries| - 1]);
    }
  }

  /** Entry i is the first of its kind whose code is not zero. */
  ghost predicate IsFirst(entries: seq<Entry>, i: nat, any: bool)
    requires AllWellFormed(entries)
  {
    && i < |entries|
    && (any || !Retriable(entries[i]))
    && Shown(entries[i]).code != 0
    && forall j :: 0 <= j < i && (any || !Retriable(entries[j])) ==> Shown(entries[j]).code == 0
  }

  /** For any entries: the first of its kind with a code that is not zero, if there is one. */
  lemma {:induction false} FirstSetIsFirst(entries: seq<Entry>, any: bool)
    requires AllWellFormed(entries)
    ensures forall i: nat :: IsFirst(entries, i, any) ==> FirstSet(entries, any) == Shown(entries[i])
    ensures FirstSet(entries, any).code == 0 ==>
              forall i :: 0 <= i < |entries| && (any || !Retriable(entries[i])) ==> Shown(entries[i]).code == 0
    ensures FirstSet(entries, any).code != 0 ==> exists i: nat :: IsFirst(entries, i, any)
  {
    if entries != [] {
      var n := |entries| - 1;
      var before, e := entries[..n], entries[n];
      FirstSetIsFirst(before, any);
      assert forall i: nat :: i < n ==> (IsFirst(entries, i, any) <==> IsFirst(before, i, any));
      if FirstSet(before, any).code == 0 && (any || !Retriable(e)) && Shown(e).code != 0 {
        assert IsFirst(entries, n, any);
      }
    }
  }

  /** With codes that are not zero, the first entry that is not retriable is reported, or else the first. */
  lemma ReportedIsFirst(entries: seq<Entry>, i: nat)
    requires AllWellFormed(entries) && i < |entries|
    requires forall j :: 0 <= j < |entries| ==> Shown(entries[j]).code != 0
    requires if AllRetriable(entries) then i == 0
             else !Retriable(entries[i]) && forall j :: 0 <= j < i ==> Retriable(entries[j])
    ensures Reported(entries) == Shown(entries[i])
  {
    FirstSetIsFirst(entries, false);
    FirstSetIsFirst(entries, true);
    assert IsFirst(entries, i, AllRetriable(entries));
  }

  /** A zero code hides an entry that is not retriable. */
  lemma ZeroCodeIsPassedOver(a: Entry, b: Entry)
    requires WellFormed(a) && WellFormed(b) && !Retriable(a) && !Retriable(b)
    requires Shown(a).code == 0 && Shown(b).code != 0
    ensures Reported([a, b]) == Shown(b)
  {
    FirstSetIsFirst([a, b], false);
    assert IsFirst([a, b], 1, false);
  }
}
