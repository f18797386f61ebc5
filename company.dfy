/** The Company document (server/models/Company.js): its member list, which
    `addMember` and `removeMember` change and the pre-save hook summarises, and the
    pure lookups `hasRole`, `getPrimaryLocation` and `getAddressString`. */
module CompanyModel {
  import opened Common

  type UserId = string

  datatype MemberStatus = Active | Pending | Suspended | Inactive

  datatype Member = Member(user: UserId, role: string, departments: seq<string>, title: Option<string>,
                           joinDate: int, lastActive: Option<int>, status: MemberStatus)

  /** The `options` argument of `addMember`, limited to the member fields it may carry. */
  datatype MemberOptions = MemberOptions(role: Option<string>, departments: Option<seq<string>>,
                                         title: Option<string>, joinDate: Option<int>)

  datatype Address = Address(street: Option<string>, city: Option<string>, state: Option<string>,
                             postalCode: Option<string>, country: Option<string>)

  datatype Location = Location(name: Option<string>, isPrimary: bool, address: Option<Address>)

  datatype Contact = Contact(email: Option<string>, address: Option<Address>)

  const DefaultRole := "member"
  /** The enumeration of the members' `role` path. */
  const MemberRoles := {"owner", "admin", "manager", "member", "viewer"}
  const AnyRole := "*"


  /** `Object.assign(existing, { role, ...options, status: 'active', lastActive: now })`. */
  function UpdatedMember(m: Member, role: string, opts: MemberOptions, now: int): Member
  {
    m.(role := Override(opts.role, role),
       departments := Override(opts.departments, m.departments),
       title := if opts.title.Some? then opts.title else m.title,
       joinDate := Override(opts.joinDate, m.joinDate),
       lastActive := Some(now),
       status := Active)
  }

  /** `{ user, role, ...options, joinDate: now, lastActive: now, status: 'active' }`. */
  function NewMember(userId: UserId, role: string, opts: MemberOptions, now: int): Member
  {
    Member(userId, Override(opts.role, role), Override(opts.departments, []), opts.title,
           now, Some(now), Active)
  }

  /** The role `addMember` writes: the options' role over the argument, whose default is 'member'. */
  function GrantedRole(role: Option<string>, opts: MemberOptions): string
  {
    Override(opts.role, Override(role, DefaultRole))
  }

  /** The message of the enumeration validator on a member's `role`. */
  function RoleEnumMessage(role: string): string
  {
    "`" + role + "` is not a valid enum value for path `role`."
  }

  /** `members.find(m => m.user === userId)`, as a position. */
  function FindMember(ms: seq<Member>, userId: UserId): (r: Option<nat>)
    ensures r.Some? ==> r.value < |ms| && ms[r.value].user == userId
                        && forall j :: 0 <= j < r.value ==> ms[j].user != userId
    ensures r.None? ==> forall j :: 0 <= j < |ms| ==> ms[j].user != userId
  {
    if ms == [] then None
    else if ms[0].user == userId then Some(0)
    else match FindMember(ms[1..], userId)
      case None => None
      case Some(i) => Some(i + 1)
  }

  /** The member list after `addMember(userId, role, options)`. */
  function WithMember(ms: seq<Member>, userId: UserId, role: string, opts: MemberOptions, now: int): seq<Member>
  {
    match FindMember(ms, userId)
    case Some(i) => ms[i := UpdatedMember(ms[i], role, opts, now)]
    case None => ms + [NewMember(userId, role, opts, now)]
  }

  /** The member list after `removeMember(userId)`. */
  function WithoutMember(ms: seq<Member>, userId: UserId): seq<Member>
  {
    if ms == [] then []
    else (if ms[0].user == userId then [] else [ms[0]]) + WithoutMember(ms[1..], userId)
  }

  predicate IsActive(m: Member) { m.status == Active }

  function ActiveCount(ms: seq<Member>): nat
  {
    CountWhere(ms, IsActive)
  }

  /** An existing user is updated in place: the list keeps its length, only the
      first entry for that user changes, and no duplicate is added. */
  lemma AddExistingUpdatesInPlace(ms: seq<Member>, userId: UserId, role: string, opts: MemberOptions, now: int)
    requires exists j :: 0 <= j < |ms| && ms[j].user == userId
    ensures var r := WithMember(ms, userId, role, opts, now);
      var i := FindMember(ms, userId).value;
      |r| == |ms| && r[i].user == userId
      && forall j :: 0 <= j < |ms| && j != i ==> r[j] == ms[j]
  {
  }

  /** A new user is appended as one active member; everything before stays as it was. */
  lemma AddNewAppends(ms: seq<Member>, userId: UserId, role: string, opts: MemberOptions, now: int)
    requires forall j :: 0 <= j < |ms| ==> ms[j].user != userId
    ensures var r := WithMember(ms, userId, role, opts, now);
      |r| == |ms| + 1 && r[..|ms|] == ms && r[|ms|].user == userId && r[|ms|].status == Active
      && r[|ms|].joinDate == now
  {
  }

  /** Either way, the user's (first) entry afterwards is active and carries the
      given role, unless the options override it. */
  lemma AddMemberGrantsRole(ms: seq<Member>, userId: UserId, role: string, opts: MemberOptions, now: int)
    ensures var r := WithMember(ms, userId, role, opts, now);
      var i := FindMember(r, userId);
      i.Some? && r[i.value].status == Active && r[i.value].lastActive == Some(now)
      && r[i.value].role == (if opts.role.Some? then opts.role.value else role)
  {
    var r := WithMember(ms, userId, role, opts, now);
    match FindMember(ms, userId)
    case Some(i) =>
      assert forall j :: 0 <= j < i ==> r[j] == ms[j];
      FirstMatch(r, userId, i);
    case None =>
      assert forall j :: 0 <= j < |ms| ==> r[j] == ms[j];
      FirstMatch(r, userId, |ms|);
  }

  /** `FindMember` reports the first position holding the user. */
  lemma FirstMatch(ms: seq<Member>, userId: UserId, i: nat)
    requires i < |ms| && ms[i].user == userId
    requires forall j :: 0 <= j < i ==> ms[j].user != userId
    ensures FindMember(ms, userId) == Some(i)
  {
    var f := FindMember(ms, userId);
    assert f.Some?;
  }

  /** The test `removeMember` filters the members with. */
  function OtherThan(userId: UserId): Member -> bool
  {
    (m: Member) => m.user != userId
  }

  /** `removeMember` is the filter that keeps the entries of other users, in their order
      and with their repetitions; so it drops every entry of that user and keeps every
      other entry, and the length drops by the user's entries. */
  lemma {:induction false} RemoveMemberExact(ms: seq<Member>, userId: UserId)
    ensures WithoutMember(ms, userId) == KeepWhere(ms, OtherThan(userId))
    ensures var r := WithoutMember(ms, userId);
      (forall m :: m in r <==> m in ms && m.user != userId)
      && |r| == |ms| - CountWhere(ms, (m: Member) => m.user == userId)
  {
    if ms != [] {
      RemoveMemberExact(ms[1..], userId);
      CountFront(ms, (m: Member) => m.user == userId);
      var p := OtherThan(userId);
      assert ms == [ms[0]] + ms[1..];
      KeepWhereAppend([ms[0]], ms[1..], p);
      assert [ms[0]][..0] == [];
      assert KeepWhere([ms[0]], p) == (if p(ms[0]) then [ms[0]] else []);
    }
  }

  /** Removing a user that is not a member changes nothing. */
  lemma {:induction false} RemoveAbsentIsIdentity(ms: seq<Member>, userId: UserId)
    requires forall j :: 0 <= j < |ms| ==> ms[j].user != userId
    ensures WithoutMember(ms, userId) == ms
  {
    if ms != [] {
      RemoveAbsentIsIdentity(ms[1..], userId);
    }
  }

  /** Removal never lengthens the list, and shortens it when the user has an entry. */
  lemma {:induction false} WithoutMemberLength(ms: seq<Member>, userId: UserId)
    ensures |WithoutMember(ms, userId)| <= |ms|
    ensures (exists j :: 0 <= j < |ms| && ms[j].user == userId) ==> |WithoutMember(ms, userId)| < |ms|
  {
    if ms != [] {
      WithoutMemberLength(ms[1..], userId);
      if ms[0].user != userId && exists j :: 0 <= j < |ms| && ms[j].user == userId {
        var j :| 0 <= j < |ms| && ms[j].user == userId;
        assert ms[1..][j - 1].user == userId;
      }
    }
  }

  /** `members.filter(...)` gives back an equal list exactly when the user has no
      entry; only then does the assignment leave `members` unmodified. */
  lemma RemoveChangesIffPresent(ms: seq<Member>, userId: UserId)
    ensures WithoutMember(ms, userId) == ms <==> FindMember(ms, userId).None?
  {
    WithoutMemberLength(ms, userId);
    if FindMember(ms, userId).None? {
      RemoveAbsentIsIdentity(ms, userId);
    }
  }

  lemma {:induction false} CountFront<T>(s: seq<T>, p: T -> bool)
    requires s != []
    ensures CountWhere(s, p) == (if p(s[0]) then 1 else 0) + CountWhere(s[1..], p)
    decreases |s|
  {
    if |s| > 1 {
      CountFront(s[..|s| - 1], p);
      assert s[..|s| - 1][1..] == s[1..][..|s[1..]| - 1];
    }
  }

  /** The first active entry of `userId`, the member `hasRole` looks at. */
  function FindActive(ms: seq<Member>, userId: UserId): (r: Option<nat>)
    ensures r.Some? ==> r.value < |ms| && ms[r.value].user == userId && IsActive(ms[r.value])
    ensures r.None? ==> forall j :: 0 <= j < |ms| ==> !(ms[j].user == userId && IsActive(ms[j]))
  {
    if ms == [] then None
    else if ms[0].user == userId && IsActive(ms[0]) then Some(0)
    else match FindActive(ms[1..], userId)
      case None => None
      case Some(i) => Some(i + 1)
  }

  /** `hasRole(userId, roles)`: true exactly when the user's first active entry exists and
      either the roles include '*' or they include that entry's role. */
  function HasRole(ms: seq<Member>, userId: UserId, roles: seq<string>): (r: bool)
    ensures r <==> exists j :: 0 <= j < |ms| && ms[j].user == userId && IsActive(ms[j])
                               && (forall k :: 0 <= k < j ==> !(ms[k].user == userId && IsActive(ms[k])))
                               && (AnyRole in roles || ms[j].role in roles)
    ensures (forall j :: 0 <= j < |ms| ==> !(ms[j].user == userId && IsActive(ms[j]))) ==> !r
    ensures AnyRole in roles && (exists j :: 0 <= j < |ms| && ms[j].user == userId && IsActive(ms[j])) ==> r
  {
    match FindActive(ms, userId)
    case None => false
    case Some(i) =>
      assert forall k :: 0 <= k < i ==> !(ms[k].user == userId && IsActive(ms[k])) by {
        FirstActive(ms, userId);
      }
      AnyRole in roles || ms[i].role in roles
  }

  /** No active entry of the user comes before the one `FindActive` reports. */
  lemma {:induction false} FirstActive(ms: seq<Member>, userId: UserId)
    requires FindActive(ms, userId).Some?
    ensures forall k :: 0 <= k < FindActive(ms, userId).value ==> !(ms[k].user == userId && IsActive(ms[k]))
  {
    if !(ms[0].user == userId && IsActive(ms[0])) {
      FirstActive(ms[1..], userId);
      forall k | 0 < k < FindActive(ms, userId).value
        ensures !(ms[k].user == userId && IsActive(ms[k]))
      {
        assert ms[k] == ms[1..][k - 1];
      }
    }
  }

  /** `locations.find(loc => loc.isPrimary) || locations[0] || null`. */
  function PrimaryLocation(locs: seq<Location>): (r: Option<Location>)
    ensures r.Some? <==> locs != []
    ensures (exists j :: 0 <= j < |locs| && locs[j].isPrimary) ==>
      r.Some? && r.value.isPrimary
      && (exists j :: 0 <= j < |locs| && locs[j] == r.value && forall k :: 0 <= k < j ==> !locs[k].isPrimary)
    ensures (forall j :: 0 <= j < |locs| ==> !locs[j].isPrimary) && locs != [] ==> r == Some(locs[0])
  {
    match FirstPrimary(locs)
    case Some(i) => Some(locs[i])
    case None => if locs == [] then None else Some(locs[0])
  }

  function FirstPrimary(locs: seq<Location>): (r: Option<nat>)
    ensures r.Some? ==> r.value < |locs| && locs[r.value].isPrimary
                        && forall k :: 0 <= k < r.value ==> !locs[k].isPrimary
    ensures r.None? ==> forall j :: 0 <= j < |locs| ==> !locs[j].isPrimary
  {
    if locs == [] then None
    else if locs[0].isPrimary then Some(0)
    else match FirstPrimary(locs[1..])
      case None => None
      case Some(i) => Some(i + 1)
  }

  /** `.filter(Boolean)` over optional strings, keeping the strings. */
  function KeepTruthy(xs: seq<Option<string>>): (r: seq<string>)
    ensures forall k :: 0 <= k < |r| ==> r[k] != ""
    ensures r == [] <==> forall k :: 0 <= k < |xs| ==> !TruthyStr(xs[k])
  {
    if xs == [] then []
    else (if TruthyStr(xs[0]) then [xs[0].value] else []) + KeepTruthy(xs[1..])
  }

  /** `KeepTruthy` is JavaScript's filter with `Boolean`: the truthy entries, in their
      order, one string per entry kept. */
  lemma {:induction false} KeepTruthyIsFilter(xs: seq<Option<string>>)
    ensures var kept := KeepWhere(xs, TruthyStr);
      |KeepTruthy(xs)| == |kept| && forall k :: 0 <= k < |kept| ==> kept[k] == Some(KeepTruthy(xs)[k])
  {
    if xs != [] {
      var rest := xs[1..];
      KeepTruthyIsFilter(rest);
      assert xs == [xs[0]] + rest;
      KeepWhereAppend([xs[0]], rest, TruthyStr);
      KeepWhereSingleton(xs[0], TruthyStr);
      if TruthyStr(xs[0]) {
        KeepTruthyConsKept(xs[0], rest);
      } else {
        assert KeepWhere(xs, TruthyStr) == KeepWhere(rest, TruthyStr);
        assert KeepTruthy(xs) == KeepTruthy(rest);
      }
    }
  }

  /** The step of `KeepTruthyIsFilter` for a truthy head. */
  lemma KeepTruthyConsKept(x: Option<string>, rest: seq<Option<string>>)
    requires TruthyStr(x)
    requires var kept := KeepWhere(rest, TruthyStr);
      |KeepTruthy(rest)| == |kept| && forall k :: 0 <= k < |kept| ==> kept[k] == Some(KeepTruthy(rest)[k])
    ensures var kept := [x] + KeepWhere(rest, TruthyStr);
      |KeepTruthy([x] + rest)| == |kept| && forall k :: 0 <= k < |kept| ==> kept[k] == Some(KeepTruthy([x] + rest)[k])
  {
    assert ([x] + rest)[1..] == rest;
    var r, r' := KeepTruthy([x] + rest), KeepTruthy(rest);
    assert r == [x.value] + r';
  }

  /** `getAddressString()`: the address of the primary (or first) location, else the
      contact's, as its truthy parts in the order street, city, state, postal code,
      country, joined by ", "; empty when there is no address or no part is set. */
  function AddressString(locs: seq<Location>, contact: Option<Contact>): (r: string)
    ensures var a := AddressOf(locs, contact);
      r == (if a.None? then ""
            else Join(KeepTruthy([a.value.street, a.value.city, a.value.state, a.value.postalCode, a.value.country]), ", "))
    ensures var a := AddressOf(locs, contact);
      r == "" <==> a.None? || forall f :: f in [a.value.street, a.value.city, a.value.state, a.value.postalCode, a.value.country] ==> !TruthyStr(f)
  {
    match AddressOf(locs, contact)
    case None => ""
    case Some(a) =>
      var parts := KeepTruthy([a.street, a.city, a.state, a.postalCode, a.country]);
      JoinNonEmpty(parts, ", ");
      Join(parts, ", ")
  }

  /** The address `getAddressString` formats: the primary (or first) location's, and the
      contact's only when there are no locations. */
  function AddressOf(locs: seq<Location>, contact: Option<Contact>): (a: Option<Address>)
    ensures locs != [] ==> a == PrimaryLocation(locs).value.address
    ensures locs == [] ==> a == (if contact.Some? then contact.value.address else None)
  {
    match PrimaryLocation(locs)
    case Some(loc) => loc.address
    case None => if contact.Some? then contact.value.address else None
  }

  lemma {:induction false} JoinNonEmpty(parts: seq<string>, sep: string)
    requires forall k :: 0 <= k < |parts| ==> parts[k] != ""
    ensures Join(parts, sep) == "" <==> parts == []
  {
    if |parts| > 1 {
      JoinNonEmpty(parts[1..], sep);
    }
  }

  /** A company document; its member list and statistics change in place. */
  class Company {
    var members: seq<Member>
    var locations: seq<Location>
    var contact: Option<Contact>
    var totalUsers: nat
    var statsUpdated: Option<int>

    constructor (members: seq<Member>, locations: seq<Location>, contact: Option<Contact>)
      ensures this.members == members && this.locations == locations && this.contact == contact
      ensures totalUsers == 0 && statsUpdated == None
    {
      this.members, this.locations, this.contact := members, locations, contact;
      totalUsers, statsUpdated := 0, None;
    }

    /** The pre-save hook: on a new document or a changed member list, recount the active members. */
    method PreSave(isNew: bool, membersModified: bool, now: int)
      modifies this
      ensures members == old(members) && locations == old(locations) && contact == old(contact)
      ensures isNew || membersModified ==> totalUsers == ActiveCount(members) && statsUpdated == Some(now)
      ensures !(isNew || membersModified) ==> totalUsers == old(totalUsers) && statsUpdated == old(statsUpdated)
    {
      if isNew || membersModified {
        totalUsers := ActiveCount(members);
        statsUpdated := Some(now);
      }
    }

    /** `addMember(userId, role = 'member', options)`, followed by the save it triggers.
        The member list is changed in memory either way; validation runs before the
        pre-save hook, so a role outside the enumeration rejects the save with the
        enumeration message and the stats are not recounted. */
    method AddMember(userId: UserId, role: Option<string>, opts: MemberOptions, now: int)
      returns (saved: Result<(), string>)
      modifies this
      ensures members == WithMember(old(members), userId, Override(role, DefaultRole), opts, now)
      ensures locations == old(locations) && contact == old(contact)
      ensures saved.Ok? <==> GrantedRole(role, opts) in MemberRoles
      ensures saved.Ok? ==> totalUsers == ActiveCount(members) && statsUpdated == Some(now)
      ensures saved.Err? ==>
        saved.error == RoleEnumMessage(GrantedRole(role, opts))
        && totalUsers == old(totalUsers) && statsUpdated == old(statsUpdated)
    {
      var r := Override(role, DefaultRole);
      var found := FindMember(members, userId);
      if found.Some? {
        var i := found.value;
        members := members[i := UpdatedMember(members[i], r, opts, now)];
      } else {
        members := members + [NewMember(userId, r, opts, now)];
      }
      var granted := Override(opts.role, r);
      if granted !in MemberRoles {
        return Err(RoleEnumMessage(granted));
      }
      PreSave(false, true, now);
      saved := Ok(());
    }

    /** `removeMember(userId)`, followed by the save it triggers. Mongoose marks
        `members` modified only when the filtered list differs from the stored one, so
        removing a user without an entry leaves the stats as they were. */
    method RemoveMember(userId: UserId, now: int)
      modifies this
      ensures members == WithoutMember(old(members), userId)
      ensures locations == old(locations) && contact == old(contact)
      ensures members == old(members) <==> FindMember(old(members), userId).None?
      ensures FindMember(old(members), userId).Some? ==>
        totalUsers == ActiveCount(members) && statsUpdated == Some(now)
      ensures FindMember(old(members), userId).None? ==>
        totalUsers == old(totalUsers) && statsUpdated == old(statsUpdated)
    {
      var kept := WithoutMember(members, userId);
      RemoveChangesIffPresent(members, userId);
      var modified := kept != members;
      members := kept;
      PreSave(false, modified, now);
    }
  }
}
