/** The Person class of EncapsulationExample: private name and age behind getters and setters, the age setter guarded. */
module Encapsulation {
  import opened NameAge

  class Person {
    var name: Option<string>
    var age: int

    /** The two fields as one value. */
    function Snapshot(): Fields
      reads this
    {
      Fields(name, age)
    }

    /** The reachable-state invariant: the age is 0 or positive. */
    ghost predicate Valid()
      reads this
    {
      age == 0 || age > 0
    }

    /** Java's implicit constructor: no name yet, age 0. */
    constructor ()
      ensures Snapshot() == Default
      ensures Valid()
    {
      name := None;
      age := 0;
    }

    method GetName() returns (current: Option<string>)
      ensures current == name
    {
      current := name;
    }

    method SetName(newName: string)
      modifies this`name
      ensures Snapshot() == Apply(old(Snapshot()), Setter.SetName(newName))
      ensures name == Some(newName) && age == old(age)
      ensures old(Valid()) ==> Valid()
    {
      name := Some(newName);
    }

    method GetAge() returns (current: int)
      ensures current == age
    {
      current := age;
    }

    method SetAge(newAge: int)
      modifies this`age
      ensures Snapshot() == Apply(old(Snapshot()), Setter.SetAge(newAge))
      ensures newAge > 0 ==> age == newAge
      ensures newAge <= 0 ==> age == old(age)
      ensures name == old(name)
      ensures old(Valid()) ==> Valid()
    {
      if newAge > 0 {
        age := newAge;
      }
    }
  }

  /** The demonstration: set the name to "Craig" and the age to 40, then read
      both back. */
  method Demo() returns (name: Option<string>, age: int)
    ensures name == Some("Craig") && age == 40
  {
    var x := new Person();
    x.SetName("Craig");
    x.SetAge(40);
    name := x.GetName();
    age := x.GetAge();
  }
}
