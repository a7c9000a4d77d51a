/** app/queries/study_group_query.go: study groups with unique invite codes, and their
    members. The two tables are fields of a store object. */
module StudyGroupQuery {
  import opened Wrappers
  import opened Models
  import opened InviteCode

  /** Line 19. */
  const MaxAttempt := 3

  /** Line 22. */
  const CodeLength := 8

  const Exhausted := "failed to generate unique invite code after multiple attempts"

  /** The columns the database fills in when a group row is inserted. */
  datatype GroupDefaults = GroupDefaults(id: Uuid, memberCount: int, createdAt: Timestamp)

  /** The row inserted for `sg` with invite code `code`. */
  function NewRow(sg: StudyGroup, code: string, defaults: GroupDefaults): StudyGroup {
    StudyGroup(defaults.id, sg.name, sg.description, Some(code), defaults.memberCount,
               sg.maxMember, sg.isPrivate, sg.createdBy, defaults.createdAt, defaults.createdAt)
  }

  /** The invite codes held by `groups`. */
  function Codes(groups: seq<StudyGroup>): set<string> {
    set g | g in groups && g.inviteCode.Some? :: g.inviteCode.value
  }

  /** What the database says to an insert: a failure other than a conflict, or nothing. */
  type Faults = nat -> Option<string>

  /** Attempt `k` generated a code that was already taken, so the insert hit the unique
      constraint on invite codes. */
  predicate Conflicted(codes: set<string>, draws: nat -> Draws, faults: Faults, k: nat) {
    && FirstFailure(draws(k), CodeLength).None?
    && faults(k).None?
    && CodeOf(draws(k), CodeLength) in codes
  }

  /** The first group in `groups` with id `id`. */
  function GroupWithId(groups: seq<StudyGroup>, id: Uuid): (r: Option<StudyGroup>)
    ensures r.Some? ==> r.value in groups && r.value.id == id
    ensures r.None? <==> forall g :: g in groups ==> g.id != id
  {
    if groups == [] then None
    else if groups[0].id == id then Some(groups[0])
    else GroupWithId(groups[1..], id)
  }

  class Store {
    /** The `study_group` table. */
    var groups: seq<StudyGroup>
    /** The `study_group_member` table, as (group, user) pairs. */
    var members: set<(Uuid, Uuid)>

    constructor(groups: seq<StudyGroup>, members: set<(Uuid, Uuid)>)
      ensures this.groups == groups && this.members == members
    {
      this.groups := groups;
      this.members := members;
    }

    /** Lines 18-67. Attempt `k` draws its code from `draws(k)`; `faults(k)` is a failure of
        its insert other than a conflict. A conflict (code 23505) happens exactly when the
        code is already stored, the unique constraint on invite codes being assumed.
        `attempts` counts the attempts started. */
    method CreateStudyGroup(sg: StudyGroup, draws: nat -> Draws, faults: Faults, defaults: GroupDefaults)
      returns (r: Result<StudyGroup>, attempts: nat)
      modifies this
      ensures members == old(members)
      ensures 1 <= attempts <= MaxAttempt
      ensures forall k :: 0 <= k < attempts - 1 ==> Conflicted(old(Codes(groups)), draws, faults, k)
      ensures r.Ok? ==> FirstFailure(draws(attempts - 1), CodeLength).None? && faults(attempts - 1).None?
      ensures r.Ok? ==>
        var code := CodeOf(draws(attempts - 1), CodeLength);
        && code !in old(Codes(groups)) && |code| == CodeLength
        && r.value == NewRow(sg, code, defaults)
        && groups == old(groups) + [r.value]
      ensures r.Err? ==> groups == old(groups)
      ensures r.Err? ==>
        var last := attempts - 1;
        || (FirstFailure(draws(last), CodeLength).Some? &&
            r.error == draws(last)(FirstFailure(draws(last), CodeLength).value).error)
        || (FirstFailure(draws(last), CodeLength).None? && faults(last).Some? && r.error == faults(last).value)
        || (attempts == MaxAttempt && Conflicted(old(Codes(groups)), draws, faults, last) && r.error == Exhausted)
    {
      var i := 0;
      while i < MaxAttempt
        invariant 0 <= i <= MaxAttempt
        invariant groups == old(groups) && members == old(members)
        invariant forall k :: 0 <= k < i ==> Conflicted(old(Codes(groups)), draws, faults, k)
      {
        var inviteCode, err := GenerateInviteCode(CodeLength, draws(i));
        if err.Some? {
          return Err(err.value), i + 1;
        }
        if faults(i).Some? {
          return Err(faults(i).value), i + 1;
        }
        if inviteCode in Codes(groups) {
          i := i + 1;
          continue;
        }
        var created := NewRow(sg, inviteCode, defaults);
        groups := groups + [created];
        return Ok(created), i + 1;
      }
      return Err(Exhausted), MaxAttempt;
    }

    /** Lines 69-80: the group with that id, `None` when there is none, or the query's
        `fault`. */
    method GetStudyGroup(id: Uuid, fault: Option<string>) returns (r: Result<Option<StudyGroup>>)
      ensures fault.Some? ==> r == Err(fault.value)
      ensures fault.None? && (forall g :: g in groups ==> g.id != id) ==> r == Ok(None)
      ensures r.Ok? && r.value.Some? ==> r.value.value in groups && r.value.value.id == id
      ensures fault.None? ==> r == Ok(GroupWithId(groups, id))
    {
      if fault.Some? {
        return Err(fault.value);
      }
      r := Ok(GroupWithId(groups, id));
    }

    /** Lines 94-98: adds the membership; an existing one is left as it is. */
    method JoinStudyGroup(groupId: Uuid, userId: Uuid, fault: Option<string>) returns (err: Option<string>)
      modifies this
      ensures groups == old(groups)
      ensures err == fault
      ensures fault.Some? ==> members == old(members)
      ensures fault.None? ==> members == old(members) + {(groupId, userId)}
      ensures (groupId, userId) in old(members) ==> members == old(members)
    {
      err := fault;
      if fault.None? {
        members := members + {(groupId, userId)};
      }
    }
  }
}
