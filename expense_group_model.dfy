/**
 * The expense group document: its members, roles, settings and the bounds the schema
 * enforces when a group is saved.
 */
module ExpenseGroupModel {
  import opened Results
  import opened Text

  type UserId = string

  datatype Role = Owner | Admin | Member
  datatype GroupType = Family | Roommates | Travel | Friends | Other
  datatype SplitMethod = Equal | Custom | Percentage | Exact

  /** The identity snapshot that expenses, splits and settlements copy from a member. */
  datatype UserRef = UserRef(userId: UserId, name: string, email: string)

  datatype GroupMember = GroupMember(
    userId: UserId, email: string, name: string, role: Role, joinedAt: int, isActive: bool)

  datatype Settings = Settings(
    allowMemberAddExpense: bool, requireApprovalForExpense: bool, autoSettle: bool)

  datatype Group = Group(
    groupId: string,
    groupName: string,
    description: string,
    groupType: GroupType,
    createdBy: UserId,
    members: seq<GroupMember>,
    currency: string,
    defaultSplitMethod: SplitMethod,
    isActive: bool,
    settings: Settings)

  // Schema defaults.
  const DefaultRole: Role := Member
  const DefaultGroupType: GroupType := Other
  const DefaultSplitMethod: SplitMethod := Equal
  const DefaultCurrency: string := "INR"
  const DefaultSettings: Settings := Settings(true, false, false)

  const MaxGroupName: nat := 100
  const MaxDescription: nat := 500
  const MaxCurrency: nat := 3

  /** A member sub-document as the schema completes it: role Member and active unless told otherwise. */
  function NewMember(userId: UserId, email: string, name: string, joinedAt: int): (m: GroupMember)
    ensures m.role == DefaultRole && m.isActive
    ensures m.userId == userId && m.email == email && m.name == name && m.joinedAt == joinedAt
  {
    GroupMember(userId, email, name, DefaultRole, joinedAt, true)
  }

  function RefOf(m: GroupMember): UserRef {
    UserRef(m.userId, m.name, m.email)
  }

  /** The required string fields of a member are present (Mongoose refuses an empty string). */
  predicate MemberValid(m: GroupMember) {
    m.userId != [] && m.email != [] && m.name != []
  }

  /** Group name is required and at most 100 characters once trimmed; description and currency are bounded. */
  predicate GroupFieldsValid(g: Group) {
    && g.groupId != []
    && g.groupName == Trim(g.groupName)
    && 0 < |g.groupName| <= MaxGroupName
    && |g.description| <= MaxDescription
    && |g.currency| <= MaxCurrency
    && g.createdBy != []
    && (forall k :: 0 <= k < |g.members| ==> MemberValid(g.members[k]))
  }

  /** What a save of the group stores: the trim setter applied to the name, then the validators. */
  function SaveGroup(g: Group): (r: Option<Group>)
    ensures r.Some? ==> GroupFieldsValid(r.value) && r.value == g.(groupName := Trim(g.groupName))
    ensures r.None? <==> !GroupFieldsValid(g.(groupName := Trim(g.groupName)))
  {
    var stored := g.(groupName := Trim(g.groupName));
    if GroupFieldsValid(stored) then Some(stored) else None
  }

  /** Saving a group that was already valid stores it unchanged. */
  lemma SaveValidGroupIsIdentity(g: Group)
    requires GroupFieldsValid(g)
    ensures SaveGroup(g) == Some(g)
  {
    TrimIdempotent(g.groupName);
  }
}
