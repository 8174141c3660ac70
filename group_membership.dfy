/**
 * Who may manage a group, and the member-list edits of the add-members and remove-member
 * handlers: finding registered users for a batch of e-mail addresses and filtering a member out.
 */
module GroupMembership {
  import opened Results
  import opened Text
  import opened ExpenseGroupModel

  // ---------------------------------------------------------------- roles

  /** `members.find(m => m.expenseAppUserId === id)`: the first member with that id. */
  function FindMember(members: seq<GroupMember>, id: UserId): (r: Option<GroupMember>)
    ensures r.Some? ==> r.value in members && r.value.userId == id
    ensures r.None? <==> forall k :: 0 <= k < |members| ==> members[k].userId != id
  {
    if members == [] then None
    else if members[0].userId == id then Some(members[0])
    else FindMember(members[1..], id)
  }

  /** The creator, or a user whose first member entry has role Owner or Admin (active or not). */
  predicate IsManager(g: Group, caller: UserId) {
    g.createdBy == caller
      || (FindMember(g.members, caller).Some? && FindMember(g.members, caller).value.role in {Owner, Admin})
  }

  /** The creator, or a user with an active member entry. */
  predicate IsActiveMember(g: Group, caller: UserId) {
    g.createdBy == caller || exists k :: 0 <= k < |g.members| && g.members[k].userId == caller && g.members[k].isActive
  }

  /** `members.some(m => m.email === email)`. */
  predicate HasMemberEmail(members: seq<GroupMember>, email: string) {
    exists k :: 0 <= k < |members| && members[k].email == email
  }

  // ---------------------------------------------------------------- remove

  /** `members.filter(m => m.expenseAppUserId !== id)`. */
  function Without(members: seq<GroupMember>, id: UserId): (r: seq<GroupMember>)
    ensures |r| <= |members|
    ensures forall m :: m in r <==> m in members && m.userId != id
  {
    if members == [] then []
    else
      var rest := Without(members[..|members| - 1], id);
      var last := members[|members| - 1];
      assert members == members[..|members| - 1] + [last];
      if last.userId == id then rest else rest + [last]
  }

  /**
   * The filter keeps the members' order: filtering a concatenation concatenates the filtered
   * parts, and a single member is kept exactly when its id differs.
   */
  lemma {:induction false} WithoutInOrder(a: seq<GroupMember>, b: seq<GroupMember>, id: UserId)
    ensures Without(a + b, id) == Without(a, id) + Without(b, id)
    ensures |b| == 1 ==> Without(b, id) == (if b[0].userId != id then b else [])
  {
    if b != [] {
      var b' := b[..|b| - 1];
      assert (a + b)[..|a + b| - 1] == a + b';
      WithoutInOrder(a, b', id);
    } else {
      assert a + b == a;
    }
    if |b| == 1 {
      assert b[..0] == [];
    }
  }

  /**
   * The checks and edit of the remove-member handler on a group already found: only a manager
   * may remove, and a request whose first matching entry is an Owner is refused. Removing a
   * user who is not a member succeeds and changes nothing.
   */
  function RemoveMember(g: Group, caller: UserId, memberId: UserId): (r: Result<Group>)
    ensures r.Ok? <==> IsManager(g, caller) && !(FindMember(g.members, memberId).Some? && FindMember(g.members, memberId).value.role == Owner)
    ensures !IsManager(g, caller) ==> r == Fail(Forbidden)
    ensures r.Ok? ==> r.value == g.(members := Without(g.members, memberId))
  {
    if !IsManager(g, caller) then Fail(Forbidden)
    else
      var target := FindMember(g.members, memberId);
      if target.Some? && target.value.role == Owner then Fail(BadRequest)
      else Ok(g.(members := Without(g.members, memberId)))
  }

  predicate DistinctIds(members: seq<GroupMember>) {
    forall i, j :: 0 <= i < j < |members| ==> members[i].userId != members[j].userId
  }

  /** With one entry per user, a successful removal keeps every Owner and drops exactly the named user. */
  lemma RemoveKeepsOwners(g: Group, caller: UserId, memberId: UserId)
    requires DistinctIds(g.members)
    requires RemoveMember(g, caller, memberId).Ok?
    ensures forall m :: m in g.members && m.role == Owner ==> m in RemoveMember(g, caller, memberId).value.members
    ensures forall m :: m in RemoveMember(g, caller, memberId).value.members <==> m in g.members && m.userId != memberId
  {
    forall m | m in g.members && m.role == Owner
      ensures m.userId != memberId
    {
      FindUnique(g.members, memberId, m);
    }
  }

  /** With distinct ids, the first match is the only match. */
  lemma {:induction false} FindUnique(members: seq<GroupMember>, id: UserId, m: GroupMember)
    requires DistinctIds(members)
    ensures m in members && m.userId == id ==> FindMember(members, id) == Some(m)
  {
    if members != [] && members[0].userId != id {
      assert DistinctIds(members[1..]) by {
        forall i, j | 0 <= i < j < |members[1..]|
          ensures members[1..][i].userId != members[1..][j].userId
        {
          assert members[1..][i] == members[i + 1] && members[1..][j] == members[j + 1];
        }
      }
      FindUnique(members[1..], id, m);
    }
  }

  // ---------------------------------------------------------------- add

  /** A registered account, as the two user collections hold it (keyed by e-mail). */
  datatype Account = Account(userId: UserId, name: string)

  /** A user found by e-mail: the found document carries the e-mail it was looked up by. */
  datatype UserRecord = UserRecord(userId: UserId, email: string, name: string)

  /** The local user collection first, then the Google sign-in collection. */
  function Lookup(local: map<string, Account>, google: map<string, Account>, email: string): (r: Option<UserRecord>)
    ensures r.Some? ==> r.value.email == email
    ensures r.None? <==> email !in local && email !in google
  {
    if email in local then Some(UserRecord(local[email].userId, email, local[email].name))
    else if email in google then Some(UserRecord(google[email].userId, email, google[email].name))
    else None
  }

  /** `[...new Set(emails)]`: the first occurrence of each string, in order (see `DedupeKeepsFirstOccurrenceOrder`). */
  function Dedupe(s: seq<string>): (r: seq<string>)
    ensures forall x :: x in r <==> x in s
    ensures forall i, j :: 0 <= i < j < |r| ==> r[i] != r[j]
  {
    if s == [] then []
    else
      var d := Dedupe(s[..|s| - 1]);
      assert s == s[..|s| - 1] + [s[|s| - 1]];
      if s[|s| - 1] in d then d else d + [s[|s| - 1]]
  }

  /** The position of the first occurrence of `x` in `s`. */
  function FirstIndex(s: seq<string>, x: string): (k: nat)
    requires x in s
    ensures k < |s| && s[k] == x && x !in s[..k]
  {
    if s[0] == x then 0
    else
      assert s == [s[0]] + s[1..];
      var k := 1 + FirstIndex(s[1..], x);
      assert s[..k] == [s[0]] + s[1..][..k - 1];
      k
  }

  lemma FirstIndexOfPrefix(p: seq<string>, y: string, x: string)
    requires x in p
    ensures FirstIndex(p + [y], x) == FirstIndex(p, x)
  {
    assert (p + [y])[..|p|] == p;
  }

  /** The kept strings appear in the order of their first occurrences in the input. */
  lemma {:induction false} DedupeKeepsFirstOccurrenceOrder(s: seq<string>)
    ensures forall i, j :: 0 <= i < j < |Dedupe(s)| ==> FirstIndex(s, Dedupe(s)[i]) < FirstIndex(s, Dedupe(s)[j])
  {
    if s != [] {
      var p := s[..|s| - 1];
      var y := s[|s| - 1];
      assert s == p + [y];
      DedupeKeepsFirstOccurrenceOrder(p);
      var d := Dedupe(p);
      var r := Dedupe(s);
      assert r == if y in d then d else d + [y];
      forall i, j | 0 <= i < j < |r|
        ensures FirstIndex(s, r[i]) < FirstIndex(s, r[j])
      {
        assert r[i] == d[i];
        FirstIndexOfPrefix(p, y, d[i]);
        if j < |d| {
          assert r[j] == d[j];
          FirstIndexOfPrefix(p, y, d[j]);
        } else {
          assert r[j] == y && y !in p;
          assert s[..|p|] == p;
        }
      }
    }
  }

  /** The users the loop found and the trimmed e-mails it could not resolve. */
  datatype Collected = Collected(added: seq<UserRecord>, notFound: seq<string>)

  function EmailsOf(users: seq<UserRecord>): (r: seq<string>)
    ensures |r| == |users| && forall k :: 0 <= k < |users| ==> r[k] == users[k].email
  {
    seq(|users|, k requires 0 <= k < |users| => users[k].email)
  }

  /**
   * The lookup loop as written: each e-mail is trimmed, skipped when an existing member has
   * it, and otherwise resolved or reported. The set that deduplicates the batch sees the
   * e-mails before trimming, and the member check sees only the members the group had before.
   */
  function Collect(members: seq<GroupMember>, emails: seq<string>,
                   local: map<string, Account>, google: map<string, Account>): (r: Collected)
    ensures |r.added| + |r.notFound| <= |emails|
  {
    if emails == [] then Collected([], [])
    else
      var c := Collect(members, emails[..|emails| - 1], local, google);
      var t := Trim(emails[|emails| - 1]);
      if HasMemberEmail(members, t) then c
      else match Lookup(local, google, t)
        case Some(u) => Collected(c.added + [u], c.notFound)
        case None => Collected(c.added, c.notFound + [t])
  }

  /**
   * The lookup loop with the duplicate check the handler evidently intends: an e-mail is
   * skipped when, once trimmed, it belongs to an existing member or to a user this batch
   * already found.
   */
  function CollectDistinct(members: seq<GroupMember>, emails: seq<string>,
                           local: map<string, Account>, google: map<string, Account>): (r: Collected)
    ensures |r.added| + |r.notFound| <= |emails|
  {
    if emails == [] then Collected([], [])
    else AddDistinct(members, CollectDistinct(members, emails[..|emails| - 1], local, google),
                     Trim(emails[|emails| - 1]), local, google)
  }

  /** One trimmed address of the corrected loop against the result so far. */
  function AddDistinct(members: seq<GroupMember>, c: Collected, t: string,
                       local: map<string, Account>, google: map<string, Account>): (r: Collected)
    ensures |r.added| + |r.notFound| <= |c.added| + |c.notFound| + 1
  {
    if HasMemberEmail(members, t) || t in EmailsOf(c.added) then c
    else match Lookup(local, google, t)
      case Some(u) => Collected(c.added + [u], c.notFound)
      case None => Collected(c.added, c.notFound + [t])
  }

  /** The lookup loop of the add-members handler, over the deduplicated batch. */
  method CollectNewMembers(members: seq<GroupMember>, emails: seq<string>,
                           local: map<string, Account>, google: map<string, Account>)
    returns (c: Collected)
    ensures c == CollectDistinct(members, emails, local, google)
  {
    c := Collected([], []);
    for i := 0 to |emails|
      invariant c == CollectDistinct(members, emails[..i], local, google)
    {
      assert emails[..i + 1][..i] == emails[..i];
      c := AddDistinct(members, c, Trim(emails[i]), local, google);
    }
    assert emails[..|emails|] == emails;
  }

  /** The new member entries, role Member, active, joined at `now`. */
  function AppendMembers(members: seq<GroupMember>, users: seq<UserRecord>, now: int): (r: seq<GroupMember>)
    ensures |r| == |members| + |users| && r[..|members|] == members
    ensures forall k :: 0 <= k < |users| ==>
      r[|members| + k] == NewMember(users[k].userId, users[k].email, users[k].name, now)
  {
    members + seq(|users|, k requires 0 <= k < |users| => NewMember(users[k].userId, users[k].email, users[k].name, now))
  }

  /** One step of the corrected loop: the last address of the batch against the result so far. */
  lemma CollectDistinctStep(members: seq<GroupMember>, emails: seq<string>,
                            local: map<string, Account>, google: map<string, Account>)
    requires emails != []
    ensures var c := CollectDistinct(members, emails[..|emails| - 1], local, google);
      var t := Trim(emails[|emails| - 1]);
      CollectDistinct(members, emails, local, google)
        == if HasMemberEmail(members, t) || t in EmailsOf(c.added) then c
           else if Lookup(local, google, t).Some? then Collected(c.added + [Lookup(local, google, t).value], c.notFound)
           else Collected(c.added, c.notFound + [t])
  {
  }

  /** The corrected loop adds registered users only, none of them already a member by e-mail. */
  lemma {:induction false} CollectDistinctAddsRegisteredNonMembers(members: seq<GroupMember>, emails: seq<string>,
                                                                   local: map<string, Account>, google: map<string, Account>)
    ensures var c := CollectDistinct(members, emails, local, google);
      forall k :: 0 <= k < |c.added| ==>
        Lookup(local, google, c.added[k].email) == Some(c.added[k]) && !HasMemberEmail(members, c.added[k].email)
  {
    if emails != [] {
      var prefix := emails[..|emails| - 1];
      var c := CollectDistinct(members, prefix, local, google);
      var t := Trim(emails[|emails| - 1]);
      CollectDistinctAddsRegisteredNonMembers(members, prefix, local, google);
      CollectDistinctStep(members, emails, local, google);
      var r := CollectDistinct(members, emails, local, google);
      if r != c && Lookup(local, google, t).Some? {
        var u := Lookup(local, google, t).value;
        assert r.added == c.added + [u];
        assert u.email == t && !HasMemberEmail(members, t);
        forall k | 0 <= k < |r.added|
          ensures Lookup(local, google, r.added[k].email) == Some(r.added[k]) && !HasMemberEmail(members, r.added[k].email)
        {
          if k < |c.added| {
            assert r.added[k] == c.added[k];
          } else {
            assert r.added[k] == u;
          }
        }
      }
    }
  }

  /** The corrected loop never finds the same e-mail twice. */
  lemma {:induction false} CollectDistinctAddsDistinct(members: seq<GroupMember>, emails: seq<string>,
                                                       local: map<string, Account>, google: map<string, Account>)
    ensures var c := CollectDistinct(members, emails, local, google);
      forall i, j :: 0 <= i < j < |c.added| ==> c.added[i].email != c.added[j].email
  {
    if emails != [] {
      var prefix := emails[..|emails| - 1];
      var c := CollectDistinct(members, prefix, local, google);
      var t := Trim(emails[|emails| - 1]);
      CollectDistinctAddsDistinct(members, prefix, local, google);
      CollectDistinctStep(members, emails, local, google);
      var r := CollectDistinct(members, emails, local, google);
      if r != c && Lookup(local, google, t).Some? {
        var u := Lookup(local, google, t).value;
        assert r.added == c.added + [u];
        assert t !in EmailsOf(c.added);
        forall i, j | 0 <= i < j < |r.added|
          ensures r.added[i].email != r.added[j].email
        {
          assert r.added[i] == c.added[i];
          if j == |c.added| {
            assert r.added[j] == u && u.email == t;
            assert EmailsOf(c.added)[i] == c.added[i].email;
          } else {
            assert r.added[j] == c.added[j];
          }
        }
      }
    }
  }

  /** Every address the corrected loop reports as not found is registered in neither collection. */
  lemma {:induction false} CollectDistinctNotFoundUnregistered(members: seq<GroupMember>, emails: seq<string>,
                                                               local: map<string, Account>, google: map<string, Account>)
    ensures forall t :: t in CollectDistinct(members, emails, local, google).notFound ==> Lookup(local, google, t).None?
  {
    if emails != [] {
      CollectDistinctNotFoundUnregistered(members, emails[..|emails| - 1], local, google);
      CollectDistinctStep(members, emails, local, google);
    }
  }

  /** A later address never takes back what an earlier one found or reported. */
  lemma CollectDistinctGrows(members: seq<GroupMember>, emails: seq<string>,
                             local: map<string, Account>, google: map<string, Account>, x: string)
    requires emails != []
    ensures var c := CollectDistinct(members, emails[..|emails| - 1], local, google);
      var r := CollectDistinct(members, emails, local, google);
      (x in EmailsOf(c.added) ==> x in EmailsOf(r.added)) && (x in c.notFound ==> x in r.notFound)
  {
    var c := CollectDistinct(members, emails[..|emails| - 1], local, google);
    var r := CollectDistinct(members, emails, local, google);
    CollectDistinctStep(members, emails, local, google);
    assert c.added <= r.added && c.notFound <= r.notFound;
    if x in EmailsOf(c.added) {
      var k :| 0 <= k < |c.added| && EmailsOf(c.added)[k] == x;
      assert EmailsOf(r.added)[k] == x;
    }
  }

  /** The last address of the batch is accounted for once the loop has seen it. */
  lemma CollectDistinctCoversLast(members: seq<GroupMember>, emails: seq<string>,
                                  local: map<string, Account>, google: map<string, Account>)
    requires emails != []
    ensures var r := CollectDistinct(members, emails, local, google);
      var t := Trim(emails[|emails| - 1]);
      HasMemberEmail(members, t) || t in EmailsOf(r.added) || t in r.notFound
  {
    var c := CollectDistinct(members, emails[..|emails| - 1], local, google);
    var r := CollectDistinct(members, emails, local, google);
    var t := Trim(emails[|emails| - 1]);
    CollectDistinctStep(members, emails, local, google);
    CollectDistinctGrows(members, emails, local, google, t);
    if !HasMemberEmail(members, t) && t !in EmailsOf(c.added) {
      if Lookup(local, google, t).Some? {
        assert EmailsOf(r.added)[|c.added|] == t;
      } else {
        assert r.notFound == c.notFound + [t];
      }
    }
  }

  /** Every address of the batch, once trimmed, is a member's, a found user's, or reported not found. */
  lemma {:induction false} CollectDistinctCovers(members: seq<GroupMember>, emails: seq<string>,
                                                 local: map<string, Account>, google: map<string, Account>)
    ensures var c := CollectDistinct(members, emails, local, google);
      forall k :: 0 <= k < |emails| ==>
        HasMemberEmail(members, Trim(emails[k])) || Trim(emails[k]) in EmailsOf(c.added) || Trim(emails[k]) in c.notFound
  {
    if emails != [] {
      var prefix := emails[..|emails| - 1];
      CollectDistinctCovers(members, prefix, local, google);
      CollectDistinctCoversLast(members, emails, local, google);
      var r := CollectDistinct(members, emails, local, google);
      forall k | 0 <= k < |emails| - 1
        ensures HasMemberEmail(members, Trim(emails[k])) || Trim(emails[k]) in EmailsOf(r.added) || Trim(emails[k]) in r.notFound
      {
        assert emails[k] == prefix[k];
        CollectDistinctGrows(members, emails, local, google, Trim(emails[k]));
      }
    }
  }

  /** Adding the users the corrected loop found keeps the member e-mails pairwise distinct. */
  lemma AppendKeepsEmailsDistinct(members: seq<GroupMember>, emails: seq<string>,
                                  local: map<string, Account>, google: map<string, Account>, now: int)
    requires forall i, j :: 0 <= i < j < |members| ==> members[i].email != members[j].email
    ensures var r := AppendMembers(members, CollectDistinct(members, emails, local, google).added, now);
      forall i, j :: 0 <= i < j < |r| ==> r[i].email != r[j].email
  {
    var c := CollectDistinct(members, emails, local, google);
    CollectDistinctAddsRegisteredNonMembers(members, emails, local, google);
    CollectDistinctAddsDistinct(members, emails, local, google);
    assert var c := CollectDistinct(members, emails, local, google);
      forall i, j :: 0 <= i < j < |c.added| ==> c.added[i].email != c.added[j].email;
    assert var c := CollectDistinct(members, emails, local, google);
      forall k :: 0 <= k < |c.added| ==> !HasMemberEmail(members, c.added[k].email);
    AppendDistinctUsers(members, c.added, now);
  }

  /** Appending users with distinct e-mails, none a member's, keeps the member e-mails distinct. */
  lemma AppendDistinctUsers(members: seq<GroupMember>, users: seq<UserRecord>, now: int)
    requires forall i, j :: 0 <= i < j < |members| ==> members[i].email != members[j].email
    requires forall i, j :: 0 <= i < j < |users| ==> users[i].email != users[j].email
    requires forall k :: 0 <= k < |users| ==> !HasMemberEmail(members, users[k].email)
    ensures var r := AppendMembers(members, users, now);
      forall i, j :: 0 <= i < j < |r| ==> r[i].email != r[j].email
  {
    var r := AppendMembers(members, users, now);
    forall i, j | 0 <= i < j < |r|
      ensures r[i].email != r[j].email
    {
      if i < |members| && j >= |members| {
        assert r[j].email == users[j - |members|].email;
        assert r[i] == members[i];
        assert HasMemberEmail(members, members[i].email);
      } else if i >= |members| {
        assert r[i].email == users[i - |members|].email;
        assert r[j].email == users[j - |members|].email;
      } else {
        assert r[i] == members[i] && r[j] == members[j];
      }
    }
  }

  /**
   * The loop as written adds the same user twice when the batch holds one address with and
   * without surrounding spaces.
   */
  lemma CollectAddsDuplicate()
    ensures var local := map["a@x" := Account("u1", "A")];
      var c := Collect([], Dedupe(["a@x", " a@x"]), local, map[]);
      c.added == [UserRecord("u1", "a@x", "A"), UserRecord("u1", "a@x", "A")]
  {
    var a, b := "a@x", " a@x";
    var local: map<string, Account> := map[a := Account("u1", "A")];
    var google: map<string, Account> := map[];
    assert b[1..] == a;
    TrimStartOfTrimmed(a);
    TrimEndOfTrimmed(a);
    assert Trim(a) == a;
    assert Trim(b) == a;
    assert [a, b][..1] == [a] && [a][..0] == [];
    assert Dedupe([a]) == [a];
    assert b !in [a];
    assert Dedupe([a, b]) == [a, b];
    var u := UserRecord("u1", a, "A");
    assert Lookup(local, google, a) == Some(u);
    assert Collect([], [a], local, google) == Collected([u], []);
  }
}
