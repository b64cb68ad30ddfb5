/** The hand-made objects of 20_ObjectOrientation/InheritAnimalsElves.c
    and 20_ObjectOrientation/InheritAnimalElves.c. An `Animal` is an
    `unsigned short` age with two method pointers. An `Elf` starts with
    the same fields and adds a name and its own methods, so an `Elf*` may
    be used as an `Animal*`. One class stands for both structs. The
    `inc_age` pointer is a tag saying which function it holds, and the
    name is absent for an animal. `get_age` holds `animal_get_age` in
    both kinds, so it is not a field. */
module Creatures {
  import opened Wrappers

  /** The range of `unsigned short`. */
  const AgeRange: nat := 0x1_0000
  type UShort = x: int | 0 <= x < 0x1_0000

  /** The function an `inc_age` pointer holds. */
  datatype IncAge = AnimalIncAge | ElfIncAge

  class Creature {
    var age: UShort
    /** The `inc_age` pointer, set by the constructor. */
    const incAge: IncAge
    /** An elf's `name`; an animal has none. */
    var name: Option<string>

    /** `new_animal(age)`: the given age and `animal_inc_age`. */
    constructor NewAnimal(age: UShort)
      ensures this.age == age && incAge == AnimalIncAge && name == None
    {
      this.age := age;
      incAge := AnimalIncAge;
      name := None;
    }

    /** `new_elf(age, name)`: the given age and name and `elf_inc_age`. */
    constructor NewElf(age: UShort, name: string)
      ensures this.age == age && incAge == ElfIncAge && this.name == Some(name)
    {
      this.age := age;
      incAge := ElfIncAge;
      this.name := Some(name);
    }

    /** `animal_inc_age(this)`: one year more, wrapping at 65536. */
    method AnimalIncAgeCall()
      modifies this
      ensures age == (old(age) + 1) % AgeRange && name == old(name)
    {
      age := (age + 1) % AgeRange;
    }

    /** `elf_inc_age(this)`: seven years more, wrapping at 65536. */
    method ElfIncAgeCall()
      modifies this
      ensures age == (old(age) + 7) % AgeRange && name == old(name)
    {
      age := (age + 7) % AgeRange;
    }

    /** `x->inc_age(x)`: the call goes through the stored pointer, so an
        elf ages by 7 even when it is used as an `Animal*`. */
    method IncAge()
      modifies this
      ensures incAge == AnimalIncAge ==> age == (old(age) + 1) % AgeRange
      ensures incAge == ElfIncAge ==> age == (old(age) + 7) % AgeRange
      ensures name == old(name)
    {
      match incAge
      case AnimalIncAge => AnimalIncAgeCall();
      case ElfIncAge => ElfIncAgeCall();
    }

    /** `animal_get_age(this)`. */
    function GetAge(): UShort
      reads this
    {
      age
    }

    /** `elf_set_name(this, name)`: the new name; the age stays. */
    method SetName(newName: string)
      requires name.Some?
      modifies this
      ensures name == Some(newName) && age == old(age)
    {
      name := Some(newName);
    }

    /** `elf_get_name(this)`. */
    function GetName(): string
      requires name.Some?
      reads this
    {
      name.value
    }
  }

  /** `main` of InheritAnimalsElves.c: the ages and names it prints, in
      order. The elf behind an `Animal*` ages by 7 like the others. */
  method AnimalsElvesMain() returns (ages: seq<int>, names: seq<string>)
    ensures ages == [5, 6, 100, 107, 50, 57]
    ensures names == ["Galadriel", "Elrond"]
  {
    var a := new Creature.NewAnimal(5);
    ages := [a.GetAge()];
    a.IncAge();
    ages := ages + [a.GetAge()];
    var e := new Creature.NewElf(100, "Galadriel");
    ages := ages + [e.GetAge()];
    e.IncAge();
    ages := ages + [e.GetAge()];
    names := [e.GetName()];
    e.SetName("Elrond");
    names := names + [e.GetName()];
    var ae := new Creature.NewElf(50, "Celebrimbor");
    ages := ages + [ae.GetAge()];
    ae.IncAge();
    ages := ages + [ae.GetAge()];
  }

  /** `main` of InheritAnimalElves.c as written: its third part creates
      the elf `e` but increments `ae` again, so the age it prints after
      the increment is still 50. */
  method AnimalElvesMainAsWritten() returns (ages: seq<int>)
    ensures ages == [5, 6, 100, 107, 50, 50]
  {
    var a := new Creature.NewAnimal(5);
    ages := [a.GetAge()];
    a.IncAge();
    ages := ages + [a.GetAge()];
    var ae := new Creature.NewElf(100, "Celebrimbor");
    ages := ages + [ae.GetAge()];
    ae.IncAge();
    ages := ages + [ae.GetAge()];
    var e := new Creature.NewElf(50, "Celebrimbor");
    ages := ages + [e.GetAge()];
    ae.IncAge();
    ages := ages + [e.GetAge()];
  }

  /** The third part incrementing `e`, as its message says: 50, then 57. */
  method AnimalElvesMain() returns (ages: seq<int>)
    ensures ages == [5, 6, 100, 107, 50, 57]
  {
    var a := new Creature.NewAnimal(5);
    ages := [a.GetAge()];
    a.IncAge();
    ages := ages + [a.GetAge()];
    var ae := new Creature.NewElf(100, "Celebrimbor");
    ages := ages + [ae.GetAge()];
    ae.IncAge();
    ages := ages + [ae.GetAge()];
    var e := new Creature.NewElf(50, "Celebrimbor");
    ages := ages + [e.GetAge()];
    e.IncAge();
    ages := ages + [e.GetAge()];
  }
}
