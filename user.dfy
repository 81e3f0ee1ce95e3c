/**
  The rights a user can hold. `UserRight` is an enumeration over `int` in
  which two names, `None` and `AddObject`, share the value 1.
*/
module UserRights {
  newtype UserRight = int

  const None: UserRight := 1
  const AddObject: UserRight := 1
  const EditObjects: UserRight := 2
  const ViewApartmentProject: UserRight := 3
  const ViewFloorProject: UserRight := 4
  const AddToTemplate: UserRight := 6
  const Generate3DTour: UserRight := 7
  const ShowRenderGallery: UserRight := 8
  const AddApartment: UserRight := 9
  const EditApartment: UserRight := 10
  const AddFloor: UserRight := 11
  const EditFloor: UserRight := 12
  const SvgExport: UserRight := 14
  const ObjExport: UserRight := 15
  const Render: UserRight := 16
  const FullArchive: UserRight := 17
  const SetProjectPriority: UserRight := 18

  /**
    The rights `EnumConverter.TryParse<UserRight>` yields for `numbers`, in
    order: the numbers `converts` accepts, each kept as the right with that value.
  */
  function Converted(converts: int -> bool, numbers: seq<int>): (r: seq<UserRight>)
    ensures |r| <= |numbers|
    ensures forall i :: 0 <= i < |r| ==> converts(r[i] as int) && r[i] as int in numbers
    ensures forall j :: 0 <= j < |numbers| && converts(numbers[j]) ==> numbers[j] as UserRight in r
  {
    if numbers == [] then []
    else
      var last := numbers[|numbers| - 1];
      Converted(converts, numbers[..|numbers| - 1]) + (if converts(last) then [last as UserRight] else [])
  }

  /**
    Conversion works number by number: converting `a + b` converts `a`, then
    `b`, so the rights keep the order of their numbers.
  */
  lemma {:induction false} ConvertedAppend(converts: int -> bool, a: seq<int>, b: seq<int>)
    ensures Converted(converts, a + b) == Converted(converts, a) + Converted(converts, b)
    decreases |b|
  {
    if b == [] {
      assert a + b == a;
    } else {
      var init := b[..|b| - 1];
      assert (a + b)[..|a + b| - 1] == a + init;
      assert (a + b)[|a + b| - 1] == b[|b| - 1];
      ConvertedAppend(converts, a, init);
    }
  }

  /** A single number becomes its right exactly when the converter accepts it, and is dropped otherwise. */
  lemma ConvertedOne(converts: int -> bool, x: int)
    ensures Converted(converts, [x]) == if converts(x) then [x as UserRight] else []
  {
    assert [x][..0] == [];
  }

  /** The numbers of `rights`, in order: `rights.Select(x => (int) x)`. */
  function Numbers(rights: seq<UserRight>): (ns: seq<int>)
    ensures |ns| == |rights| && forall i :: 0 <= i < |rights| ==> ns[i] == rights[i] as int
  {
    seq(|rights|, i requires 0 <= i < |rights| => rights[i] as int)
  }

  /** Converting back the numbers of rights the converter accepts gives the same rights. */
  lemma {:induction false} ConvertedNumbers(converts: int -> bool, rights: seq<UserRight>)
    requires forall i :: 0 <= i < |rights| ==> converts(rights[i] as int)
    ensures Converted(converts, Numbers(rights)) == rights
  {
    if rights != [] {
      var init := rights[..|rights| - 1];
      assert Numbers(rights)[..|rights| - 1] == Numbers(init);
      ConvertedNumbers(converts, init);
      assert rights == init + [rights[|rights| - 1]];
    }
  }
}

/** The signed-in user. */
module Users {
  import Wrappers
  import opened UserRights

  /** The token the server hands out after a successful sign-in. */
  datatype Token = Token(identifier: string)

  /** `User.Memento`; `GetMemento` leaves `email` unset (`null`). */
  datatype Memento = Memento(name: string, surname: string, rights: seq<int>, email: Wrappers.Option<string>)

  /** `userRights.All(userRight => rights.Contains(userRight))`. */
  function AllHeld(userRights: seq<UserRight>, rights: seq<UserRight>): (r: bool)
    ensures r <==> (set x | x in userRights) <= (set x | x in rights)
    ensures userRights == [] ==> r
  {
    if userRights == [] then true
    else
      var rest := AllHeld(userRights[1..], rights);
      assert (set x | x in userRights) == {userRights[0]} + (set x | x in userRights[1..]) by {
        forall x | x in userRights ensures x == userRights[0] || x in userRights[1..] {
          var i :| 0 <= i < |userRights| && userRights[i] == x;
          if i > 0 {
            assert userRights[1..][i - 1] == x;
          }
        }
      }
      userRights[0] in rights && rest
  }

  class User {
    /** `EnumConverter.TryParse<UserRight>`: whether a number names a right. */
    const converts: int -> bool
    const email: string
    const id: int
    const token: Token
    var name: string
    var surname: string
    var rights: seq<UserRight>

    /** The constructor keeps the convertible numbers of `rightNumbers`, in order. */
    constructor (converts: int -> bool, name: string, surname: string, rightNumbers: seq<int>,
                 token: Token, email: string, id: int)
      ensures this.converts == converts && this.name == name && this.surname == surname
      ensures this.token == token && this.email == email && this.id == id
      ensures rights == Converted(converts, rightNumbers)
    {
      this.converts := converts;
      this.id := id;
      this.name := name;
      this.surname := surname;
      var kept: seq<UserRight> := [];
      var i := 0;
      while i < |rightNumbers|
        invariant 0 <= i <= |rightNumbers|
        invariant kept == Converted(converts, rightNumbers[..i])
      {
        assert rightNumbers[..i + 1][..i] == rightNumbers[..i];
        if converts(rightNumbers[i]) {
          kept := kept + [rightNumbers[i] as UserRight];
        }
        i := i + 1;
      }
      assert rightNumbers[..i] == rightNumbers;
      rights := kept;
      this.email := email;
      this.token := token;
    }

    /** `GetFullName`: the name, one space, the surname. */
    function GetFullName(): (r: string)
      reads this
      ensures |r| == |name| + 1 + |surname|
      ensures r[..|name|] == name && r[|name|] == ' ' && r[|name| + 1..] == surname
    {
      name + " " + surname
    }

    /** `HasRights`: every right asked for is held; true when none is asked for. */
    predicate HasRights(userRights: seq<UserRight>)
      reads this
      ensures HasRights(userRights) <==> (set x | x in userRights) <= (set x | x in rights)
    {
      AllHeld(userRights, rights)
    }

    /** `GetMemento`. */
    function GetMemento(): (m: Memento)
      reads this
      ensures m.name == name && m.surname == surname && m.email.None?
      ensures |m.rights| == |rights| && forall i :: 0 <= i < |rights| ==> m.rights[i] == rights[i] as int
    {
      Memento(name, surname, Numbers(rights), Wrappers.None)
    }

    /**
      `SetMemento`: name and surname from the memento; the rights replaced by
      its convertible numbers. Restoring the user's own memento changes
      nothing when every right the user holds converts.
    */
    method SetMemento(m: Memento)
      modifies this
      ensures name == m.name && surname == m.surname
      ensures rights == Converted(converts, m.rights)
      ensures m == old(GetMemento()) && (forall i :: 0 <= i < |old(rights)| ==> converts(old(rights)[i] as int)) ==>
                name == old(name) && surname == old(surname) && rights == old(rights)
    {
      name := m.name;
      surname := m.surname;
      rights := [];
      var i := 0;
      while i < |m.rights|
        invariant 0 <= i <= |m.rights|
        invariant name == m.name && surname == m.surname
        invariant rights == Converted(converts, m.rights[..i])
      {
        assert m.rights[..i + 1][..i] == m.rights[..i];
        if converts(m.rights[i]) {
          rights := rights + [m.rights[i] as UserRight];
        }
        i := i + 1;
      }
      assert m.rights[..i] == m.rights;
      if m == old(GetMemento()) && (forall i :: 0 <= i < |old(rights)| ==> converts(old(rights)[i] as int)) {
        ConvertedNumbers(converts, old(rights));
      }
    }
  }
}
