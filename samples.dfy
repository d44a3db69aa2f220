/**
 * The sample REST application's user stores: a manager over a shared list
 * that starts with six users, and a read-only clever that builds the same
 * six users on every call.
 */
module UserSamples {
  import opened Common
  import opened Seqs

  datatype User = User(id: int, name: string, age: int)

  /** The six users both samples start from, in `Id` order. */
  const SampleUsers: seq<User> := [
    User(1, "Mukhammadkarim", 12),
    User(2, "Samandar", 32),
    User(3, "Djakhongir", 35),
    User(4, "Ixtiyor", 56),
    User(5, "Yunusjon", 34),
    User(6, "Sabohat", 23)
  ]

  /** `FirstOrDefault(u => u.Id == id)`. */
  function FindById(users: seq<User>, id: int): (r: Option<User>)
    ensures r.None? <==> forall k :: 0 <= k < |users| ==> users[k].id != id
    ensures r.Some? ==> r.value.id == id && r.value in users
  {
    FirstWhere(users, (u: User) => u.id == id)
  }

  /** The users with the first one of the given user's `Id` replaced by that user. */
  function ReplaceFirst(users: seq<User>, user: User): (r: seq<User>)
    ensures |r| == |users|
  {
    match FirstIndex(users, (u: User) => u.id == user.id)
    case None => users
    case Some(i) => users[i := user]
  }

  /** `UserEntityManager`'s static `users` list; one object stands for the one shared list. */
  class UserEntityManager {
    var users: seq<User>

    /** The static initialiser. */
    constructor()
      ensures users == SampleUsers
    {
      users := SampleUsers;
    }

    /** `Add`: appends the user and answers with it. */
    method Add(user: User) returns (r: User)
      modifies this
      ensures users == old(users) + [user] && r == user
    {
      users := users + [user];
      return user;
    }

    /**
     * `Update` as written: finds a user with the same `Id` and answers with
     * the argument, or null when there is none; only a local variable is
     * reassigned, so the list never changes.
     */
    method Update(user: User) returns (r: Option<User>)
      ensures r.None? <==> FindById(users, user.id).None?
      ensures r.Some? ==> r.value == user
    {
      var existed := FindById(users, user.id);
      if existed.None? {
        return None;
      }
      return Some(user);
    }

    /** `Update` as evidently intended: the stored user with that `Id` is replaced. */
    method UpdateStored(user: User) returns (r: Option<User>)
      modifies this
      ensures r.None? <==> old(FindById(users, user.id)).None?
      ensures r.None? ==> users == old(users)
      ensures r.Some? ==> r.value == user && users == ReplaceFirst(old(users), user)
    {
      var existed := FindById(users, user.id);
      if existed.None? {
        return None;
      }
      users := ReplaceFirst(users, user);
      return Some(user);
    }
  }

  /** After the intended update, looking the `Id` up finds the new user, and no other position changed. */
  lemma ReplaceFirstThenFind(users: seq<User>, user: User)
    requires FindById(users, user.id).Some?
    ensures FindById(ReplaceFirst(users, user), user.id) == Some(user)
    ensures forall k :: 0 <= k < |users| && users[k].id != user.id ==> ReplaceFirst(users, user)[k] == users[k]
  {
    var i := FirstIndex(users, (u: User) => u.id == user.id).value;
    var r := ReplaceFirst(users, user);
    assert r == users[i := user];
    assert FirstIndex(r, (u: User) => u.id == user.id) == Some(i) by {
      FirstIndexAt(r, (u: User) => u.id == user.id, i);
    }
  }

  /** A position whose element satisfies `p`, with none before it, is what `FirstIndex` finds. */
  lemma {:induction false} FirstIndexAt<T>(s: seq<T>, p: T -> bool, i: nat)
    requires i < |s| && p(s[i]) && forall k :: 0 <= k < i ==> !p(s[k])
    ensures FirstIndex(s, p) == Some(i)
  {
    if i > 0 {
      FirstIndexAt(s[1..], p, i - 1);
    }
  }

  /**
   * The update as written answers with the new user while the list still
   * holds the old one: renaming user 1 leaves "Mukhammadkarim" in place.
   */
  lemma UpdateAsWrittenKeepsOldUser()
    ensures FindById(SampleUsers, 1) == Some(User(1, "Mukhammadkarim", 12))
    ensures FindById(SampleUsers, User(1, "Renamed", 12).id).Some?
    ensures FindById(SampleUsers, 1) != Some(User(1, "Renamed", 12))
  {
    assert FirstIndex(SampleUsers, (u: User) => u.id == 1) == Some(0);
  }

  /** `UserClever.GetAll`: the six sample users, made afresh on each call. */
  function GetAll(): (r: seq<User>)
    ensures |r| == 6
    ensures forall k :: 0 <= k < |r| ==> r[k].id == k + 1
  {
    SampleUsers
  }

  /** `UserClever.Get`: the sample user with the `Id`, or null. */
  function Get(id: int): (r: Option<User>)
    ensures r.None? <==> !(1 <= id <= 6)
    ensures r.Some? ==> r.value == GetAll()[id - 1]
  {
    var all := GetAll();
    var r := FindById(all, id);
    if 1 <= id <= 6 then
      FirstIndexAt(all, (u: User) => u.id == id, id - 1);
      r
    else
      r
  }
}
