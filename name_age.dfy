/** The rule shared by Person and Student: a name set unconditionally and an
    age set only to positive values, each setter leaving the other field
    alone. */
module NameAge {

  /** Java's null for a name that was never set. */
  datatype Option<T> = None | Some(value: T)

  /** The two fields of a Person or a Student. */
  datatype Fields = Fields(name: Option<string>, age: int)

  /** One call to a setter. */
  datatype Setter = SetName(newName: string) | SetAge(newAge: int)

  /** The fields of a freshly constructed object: Java's defaults. */
  const Default := Fields(None, 0)

  /** The fields after one setter call. */
  function Apply(f: Fields, call: Setter): (g: Fields)
    ensures call.SetName? ==> g.name == Some(call.newName) && g.age == f.age
    ensures call.SetAge? ==> g.name == f.name
    ensures call.SetAge? && call.newAge > 0 ==> g.age == call.newAge
    ensures call.SetAge? && call.newAge <= 0 ==> g.age == f.age
    ensures f.age >= 0 ==> g.age >= 0
  {
    match call
    case SetName(n) => f.(name := Some(n))
    case SetAge(n) => if n > 0 then f.(age := n) else f
  }

  /** The fields after a sequence of setter calls, first call first. */
  function Replay(f: Fields, calls: seq<Setter>): (g: Fields)
    decreases |calls|
  {
    if calls == [] then f else Replay(Apply(f, calls[0]), calls[1..])
  }

  /** An age at or above zero stays there, whatever setters are called. */
  lemma {:induction false} ReplayKeepsAgeNonNegative(f: Fields, calls: seq<Setter>)
    requires f.age >= 0
    ensures Replay(f, calls).age >= 0
    decreases |calls|
  {
    if calls != [] {
      ReplayKeepsAgeNonNegative(Apply(f, calls[0]), calls[1..]);
    }
  }

  /** From a fresh object, the age is always 0 or positive. */
  lemma ReachableAge(calls: seq<Setter>)
    ensures Replay(Default, calls).age == 0 || Replay(Default, calls).age > 0
  {
    ReplayKeepsAgeNonNegative(Default, calls);
  }

  /** The age after any calls is the starting age or a positive age some
      call asked for. */
  lemma {:induction false} ReplayAgeWasRequested(f: Fields, calls: seq<Setter>)
    ensures Replay(f, calls).age == f.age
         || (Replay(f, calls).age > 0 && SetAge(Replay(f, calls).age) in calls)
    decreases |calls|
  {
    if calls != [] {
      ReplayAgeWasRequested(Apply(f, calls[0]), calls[1..]);
      assert calls == [calls[0]] + calls[1..];
    }
  }

  /** The name after any calls is the starting name or a name some call
      set. */
  lemma {:induction false} ReplayNameWasRequested(f: Fields, calls: seq<Setter>)
    ensures Replay(f, calls).name == f.name
         || (Replay(f, calls).name.Some? && SetName(Replay(f, calls).name.value) in calls)
    decreases |calls|
  {
    if calls != [] {
      ReplayNameWasRequested(Apply(f, calls[0]), calls[1..]);
      assert calls == [calls[0]] + calls[1..];
    }
  }

  /** Calls to the name setter alone never change the age. */
  lemma {:induction false} NameCallsKeepAge(f: Fields, calls: seq<Setter>)
    requires forall i :: 0 <= i < |calls| ==> calls[i].SetName?
    ensures Replay(f, calls).age == f.age
    decreases |calls|
  {
    if calls != [] {
      NameCallsKeepAge(Apply(f, calls[0]), calls[1..]);
    }
  }

  /** Calls to the age setter alone never change the name. */
  lemma {:induction false} AgeCallsKeepName(f: Fields, calls: seq<Setter>)
    requires forall i :: 0 <= i < |calls| ==> calls[i].SetAge?
    ensures Replay(f, calls).name == f.name
    decreases |calls|
  {
    if calls != [] {
      AgeCallsKeepName(Apply(f, calls[0]), calls[1..]);
    }
  }
}
