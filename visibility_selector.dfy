/** The sharing panel (frontend/src/components/VisibilitySelector/VisibilitySelector.tsx):
    a private/shared switch and a list of selected roles. Every handler
    updates the panel's state and reports `(isPrivate, visibility)` to the
    page through `onVisibilityChange`; the report is each method's result. */
module VisibilitySelector {
  import opened Annotations
  import Seqs

  /** The roles that can be shared with. */
  const AllUsers: seq<Role> := [A1, D1, D2]

  /** The arguments of one `onVisibilityChange` call. */
  datatype Emission = Emission(isPrivate: bool, visibility: seq<Role>)

  function Other(u: Role): Role -> bool
  {
    (x: Role) => x != u
  }

  /** `selectedUsers.filter(u => u !== user)`. */
  function Without(selected: seq<Role>, user: Role): seq<Role>
  {
    Seqs.Filter(Other(user), selected)
  }

  /** The selection after clicking `user`'s checkbox. */
  function Toggled(selected: seq<Role>, user: Role): (r: seq<Role>)
    ensures user in r <==> user !in selected
  {
    if user in selected then
      Seqs.FilterMember(Other(user), selected, user);
      Without(selected, user)
    else selected + [user]
  }

  /** What "Select All" selects: the shareable roles except oneself. */
  function SelectAllFor(currentUser: Role): (r: seq<Role>)
    ensures currentUser !in r && R1 !in r
  {
    Seqs.FilterMember(Other(currentUser), AllUsers, R1);
    AllUsersMembers(R1);
    Seqs.Filter(Other(currentUser), AllUsers)
  }

  function Offerable(currentUser: Role): Role -> bool
  {
    (u: Role) => u != currentUser && u != A1
  }

  /** The roles that get a checkbox (the admin sees shared annotations anyway). */
  function OfferedUsers(currentUser: Role): (r: seq<Role>)
    ensures currentUser !in r && A1 !in r && R1 !in r
  {
    Seqs.FilterMember(Offerable(currentUser), AllUsers, R1);
    AllUsersMembers(R1);
    Seqs.Filter(Offerable(currentUser), AllUsers)
  }

  /** Clicking a selected role removes every occurrence of it and nothing else. */
  lemma ToggleSelected(selected: seq<Role>, user: Role)
    requires user in selected
    ensures user !in Toggled(selected, user)
    ensures forall x :: x != user ==> (x in Toggled(selected, user) <==> x in selected)
  {
    forall x ensures x in Toggled(selected, user) <==> x in selected && x != user {
      Seqs.FilterMember(Other(user), selected, x);
    }
  }

  /** Clicking an unselected role appends it once. */
  lemma ToggleUnselected(selected: seq<Role>, user: Role)
    requires user !in selected
    ensures Toggled(selected, user) == selected + [user]
    ensures multiset(Toggled(selected, user))[user] == 1
  {
  }

  /** Toggling never introduces a duplicate. */
  lemma ToggleKeepsNoDup(selected: seq<Role>, user: Role)
    requires Seqs.NoDup(selected)
    ensures Seqs.NoDup(Toggled(selected, user))
  {
    if user in selected {
      Seqs.FilterNoDup(Other(user), selected);
    }
  }

  /** Clicking an unselected role twice gives back the original list. */
  lemma ToggleTwiceRestores(selected: seq<Role>, user: Role)
    requires user !in selected
    ensures Toggled(Toggled(selected, user), user) == selected
  {
    Seqs.FilterConcat(Other(user), selected, [user]);
    Seqs.FilterAll(Other(user), selected);
    Seqs.FilterSingleton(Other(user), user);
  }

  /** "Select All" selects each of A1, D1, D2 other than oneself, once. */
  lemma SelectAllContents(currentUser: Role, x: Role)
    ensures x in SelectAllFor(currentUser) <==> x != currentUser && x != R1
    ensures Seqs.NoDup(SelectAllFor(currentUser))
  {
    AllUsersMembers(x);
    Seqs.FilterMember(Other(currentUser), AllUsers, x);
    AllUsersDistinct();
    Seqs.FilterNoDup(Other(currentUser), AllUsers);
  }

  lemma AllUsersMembers(x: Role)
    ensures x in AllUsers <==> x != R1
  {
    assert AllUsers[0] == A1 && AllUsers[1] == D1 && AllUsers[2] == D2;
  }

  lemma AllUsersDistinct()
    ensures Seqs.NoDup(AllUsers)
  {
    assert AllUsers[0] == A1 && AllUsers[1] == D1 && AllUsers[2] == D2;
  }

  /** The checkboxes are for the annotators other than oneself. */
  lemma OfferedContents(currentUser: Role, x: Role)
    ensures x in OfferedUsers(currentUser) <==> (x == D1 || x == D2) && x != currentUser
  {
    AllUsersMembers(x);
    Seqs.FilterMember(Offerable(currentUser), AllUsers, x);
  }

  class Selector {
    var currentUser: Role
    var isPrivate: bool
    var selectedUsers: seq<Role>

    ghost predicate Valid()
      reads this
    {
      Seqs.NoDup(selectedUsers)
    }

    constructor (currentUser: Role)
      ensures Valid() && this.currentUser == currentUser && isPrivate && selectedUsers == []
    {
      this.currentUser := currentUser;
      isPrivate := true;
      selectedUsers := [];
    }

    /** The reset effect, run when the panel appears and whenever the role
        changes: back to private with nothing selected. */
    method UserChanged(user: Role) returns (e: Emission)
      modifies this
      ensures Valid() && currentUser == user && isPrivate && selectedUsers == []
      ensures e == Emission(true, [])
    {
      currentUser := user;
      isPrivate := true;
      selectedUsers := [];
      e := Emission(true, []);
    }

    /** `handlePrivateChange`: choosing private clears the selection;
        choosing shared reports the selection as it stands. */
    method PrivateChange(value: bool) returns (e: Emission)
      requires Valid()
      modifies this`isPrivate, this`selectedUsers
      ensures Valid() && isPrivate == value
      ensures value ==> selectedUsers == [] && e == Emission(true, [])
      ensures !value ==> selectedUsers == old(selectedUsers) && e == Emission(false, old(selectedUsers))
      ensures e == Emission(isPrivate, selectedUsers)
    {
      isPrivate := value;
      if value {
        selectedUsers := [];
        e := Emission(true, []);
      } else {
        e := Emission(false, selectedUsers);
      }
    }

    /** `handleUserToggle`. */
    method UserToggle(user: Role) returns (e: Emission)
      requires Valid()
      modifies this`selectedUsers
      ensures Valid() && selectedUsers == Toggled(old(selectedUsers), user)
      ensures e == Emission(isPrivate, selectedUsers)
    {
      ToggleKeepsNoDup(selectedUsers, user);
      var newSelection := Toggled(selectedUsers, user);
      selectedUsers := newSelection;
      e := Emission(isPrivate, newSelection);
    }

    /** `handleSelectAll`: reports shared mode; the switch itself is not touched. */
    method SelectAll() returns (e: Emission)
      requires Valid()
      modifies this`selectedUsers
      ensures Valid() && selectedUsers == SelectAllFor(currentUser) && isPrivate == old(isPrivate)
      ensures e == Emission(false, selectedUsers)
    {
      SelectAllContents(currentUser, A1);
      selectedUsers := SelectAllFor(currentUser);
      e := Emission(false, selectedUsers);
    }

    /** `handleSelectNone`: reports shared mode with nobody selected. */
    method SelectNone() returns (e: Emission)
      requires Valid()
      modifies this`selectedUsers
      ensures Valid() && selectedUsers == [] && isPrivate == old(isPrivate)
      ensures e == Emission(false, [])
    {
      selectedUsers := [];
      e := Emission(false, []);
    }
  }
}
