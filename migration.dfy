/**
 * The migration's mapping from Lighthouse records to GitLab option records:
 * ID lookups through the tables the migration fills as it goes, the sudo
 * option, label lists, issue, note and milestone options, the de-duplication
 * of project memberships and the sanitising of project names.
 */
module Migration {
  import opened Wrappers
  import opened Strings
  import opened Seqs
  import Markdown
  import Projects

  // ---------------------------------------------------------------- records

  /** A GitLab object the migration created earlier; only its ID is ever read. */
  datatype GitLabRef = GitLabRef(id: int)

  /**
   * The package-level tables `usersMap`, `usersNameMap`, `projectsMap`,
   * `milestonesMap` and `issuesMap`, keyed by Lighthouse ID (or user name);
   * a `None` value is a nil entry. `groupsMap`, keyed by group name, is only
   * ever read where an entry is present, so it holds no nil entries.
   */
  datatype Tables = Tables(
    users: map<int, Option<GitLabRef>>,
    usersByName: map<string, Option<GitLabRef>>,
    projects: map<int, Option<GitLabRef>>,
    milestones: map<int, Option<GitLabRef>>,
    issues: map<int, Option<GitLabRef>>,
    groups: map<string, GitLabRef>)

  /** `gitlab.WithSudo(id)`, the only request option the migration builds. */
  datatype RequestOption = WithSudo(userID: int)

  /** The fields of a Lighthouse ticket version the migration reads; timestamps are integers. */
  datatype LhVersion = LhVersion(
    userID: int,
    title: string,
    body: string,
    state: string,
    tag: string,
    assignedUserID: int,
    milestoneID: int,
    closed: bool,
    createdAt: Option<int>,
    updatedAt: Option<int>)

  /** The fields of a Lighthouse ticket the migration reads; `tags` are the names of its tags. */
  datatype LhTicket = LhTicket(
    number: int,
    title: string,
    body: string,
    state: string,
    creatorID: int,
    assignedUserID: int,
    milestoneID: int,
    createdAt: Option<int>,
    tags: seq<string>,
    versions: seq<LhVersion>)

  /** The fields of a Lighthouse milestone the migration reads. */
  datatype LhMilestone = LhMilestone(
    userName: string,
    title: string,
    goals: string,
    createdAt: Option<int>,
    dueOn: Option<int>,
    completedAt: Option<int>)

  /** `gitlab.CreateIssueOptions`, as far as the migration sets it. */
  datatype CreateIssueOptions = CreateIssueOptions(
    iid: int,
    title: string,
    description: string,
    assigneeIDs: seq<int>,
    milestoneID: Option<int>,
    labels: seq<string>,
    createdAt: Option<int>)

  /** `gitlab.UpdateIssueOptions`, as far as the migration sets it. */
  datatype UpdateIssueOptions = UpdateIssueOptions(
    title: string,
    assigneeIDs: seq<int>,
    milestoneID: Option<int>,
    labels: seq<string>,
    stateEvent: string,
    updatedAt: Option<int>)

  /** `gitlab.CreateIssueNoteOptions`. */
  datatype NoteOptions = NoteOptions(body: string, createdAt: Option<int>)

  /** `gitlab.CreateMilestoneOptions`. */
  datatype CreateMilestoneOptions = CreateMilestoneOptions(
    title: string,
    description: string,
    startDate: Option<int>,
    dueDate: Option<int>)

  /** The visibility and access level the migration uses: always private, always maintainer. */
  datatype Visibility = PrivateVisibility
  datatype AccessLevel = MaintainerPermissions

  /** `gitlab.CreateProjectOptions`, as far as the migration sets it. */
  datatype CreateProjectOptions = CreateProjectOptions(
    name: string,
    namespaceID: Option<int>,
    description: string,
    visibility: Visibility)

  /** `gitlab.AddProjectMemberOptions`. */
  datatype AddMemberOptions = AddMemberOptions(userID: int, accessLevel: AccessLevel)

  /** `gitlab.UpdateMilestoneOptions`. */
  datatype UpdateMilestoneOptions = UpdateMilestoneOptions(stateEvent: string)

  // ---------------------------------------------------------------- lookups

  /**
   * `projectByID`, `milestoneByID`, `issueByNumber` and `userByID`, which
   * differ only in their table: key 0, a missing key and a nil entry all miss.
   */
  function ByID(table: map<int, Option<GitLabRef>>, id: int): (r: Option<GitLabRef>)
    ensures id == 0 ==> r.None?
    ensures r.Some? <==> id != 0 && id in table && table[id].Some?
    ensures r.Some? ==> r.value == table[id].value
  {
    if id == 0 || id !in table then None else table[id]
  }

  /** `userByUsername`: the empty name, a missing name and a nil entry all miss. */
  function UserByUsername(t: Tables, username: string): (r: Option<GitLabRef>)
    ensures username == [] ==> r.None?
    ensures r.Some? <==> username != [] && username in t.usersByName && t.usersByName[username].Some?
    ensures r.Some? ==> r.value == t.usersByName[username].value
  {
    if |username| == 0 || username !in t.usersByName then None else t.usersByName[username]
  }

  /** `withSudoByUserID`: act as the mapped user when there is one, otherwise as the token's owner. */
  function SudoByUserID(t: Tables, id: int): (opts: seq<RequestOption>)
    ensures |opts| <= 1
    ensures opts == [] <==> !(id != 0 && id in t.users && t.users[id].Some?)
    ensures opts != [] ==> opts[0] == WithSudo(t.users[id].value.id)
  {
    var u := ByID(t.users, id);
    if u.Some? then [WithSudo(u.value.id)] else []
  }

  /** `withSudoByUsername`. */
  function SudoByUsername(t: Tables, username: string): (opts: seq<RequestOption>)
    ensures |opts| <= 1
    ensures opts == [] <==> !(username != [] && username in t.usersByName && t.usersByName[username].Some?)
    ensures opts != [] ==> opts[0] == WithSudo(t.usersByName[username].value.id)
  {
    var u := UserByUsername(t, username);
    if u.Some? then [WithSudo(u.value.id)] else []
  }

  /** The assignee list of an issue: `[0]` (unassigned) for ID 0, the mapped ID on a hit, and empty on a miss. */
  function Assignees(t: Tables, id: int): (ids: seq<int>)
    ensures id == 0 ==> ids == [0]
    ensures id != 0 && id in t.users && t.users[id].Some? ==> ids == [t.users[id].value.id]
    ensures id != 0 && !(id in t.users && t.users[id].Some?) ==> ids == []
  {
    if id == 0 then [0]
    else
      var u := ByID(t.users, id);
      if u.Some? then [u.value.id] else []
  }

  /** The milestone of an issue: 0 (none) for ID 0, the mapped ID on a hit, and absent on a miss. */
  function MilestoneRef(t: Tables, id: int): (r: Option<int>)
    ensures id == 0 ==> r == Some(0)
    ensures id != 0 && id in t.milestones && t.milestones[id].Some? ==> r == Some(t.milestones[id].value.id)
    ensures id != 0 && !(id in t.milestones && t.milestones[id].Some?) ==> r.None?
  {
    if id == 0 then Some(0)
    else
      var m := ByID(t.milestones, id);
      if m.Some? then Some(m.value.id) else None
  }

  // ---------------------------------------------------------------- labels

  /** The scoped state label `stateKey::state`. */
  function ScopedLabel(stateKey: string, state: string): (l: string)
    ensures l == stateKey + "::" + state
  {
    assert [stateKey, state][1..] == [state];
    assert Join([state], "::") == state;
    Join([stateKey, state], "::")
  }

  /** The labels of a ticket: its tag names, in order, then its scoped state label. */
  function TicketLabelList(tags: seq<string>, stateKey: string, state: string): seq<string> {
    tags + [ScopedLabel(stateKey, state)]
  }

  /** `lhTicketToLabels`. */
  method TicketToLabels(ticket: LhTicket, stateKey: string) returns (labels: seq<string>)
    ensures labels == TicketLabelList(ticket.tags, stateKey, ticket.state)
  {
    labels := [];
    for i := 0 to |ticket.tags|
      invariant labels == ticket.tags[..i]
    {
      labels := labels + [ticket.tags[i]];
    }
    assert ticket.tags[..|ticket.tags|] == ticket.tags;
    labels := labels + [ScopedLabel(stateKey, ticket.state)];
  }

  /**
   * The fields of a version's tag string: the record the CSV reader (with a
   * space as separator) reads, or the white-space separated words when it
   * reports an error (`None`). The CSV reader itself is a parameter.
   */
  function VersionRecord(csv: string -> Option<seq<string>>, tag: string): seq<string> {
    if csv(tag).Some? then csv(tag).value else FieldsBy(tag, IsSpace)
  }

  /** The labels of a version: the non-empty fields of its record, in order, then its scoped state label. */
  function VersionLabelList(record: seq<string>, stateKey: string, state: string): seq<string> {
    NonEmpty(record) + [ScopedLabel(stateKey, state)]
  }

  /** Dropping empty strings commutes with appending one more. */
  lemma {:induction false} NonEmptySnoc(xs: seq<string>, x: string)
    ensures NonEmpty(xs + [x]) == NonEmpty(xs) + (if x == [] then [] else [x])
    decreases |xs|
  {
    if xs == [] {
      assert [] + [x] == [x];
    } else {
      assert (xs + [x])[1..] == xs[1..] + [x];
      NonEmptySnoc(xs[1..], x);
    }
  }

  /** `lhTicketVersionToLabels`. */
  method VersionToLabels(csv: string -> Option<seq<string>>, version: LhVersion, stateKey: string) returns (labels: seq<string>)
    ensures labels == VersionLabelList(VersionRecord(csv, version.tag), stateKey, version.state)
  {
    var record: seq<string>;
    var read := csv(version.tag);
    if read.Some? {
      record := read.value;
    } else {
      record := FieldsBy(version.tag, IsSpace);
    }
    labels := [];
    for i := 0 to |record|
      invariant labels == NonEmpty(record[..i])
    {
      TakeSnoc(record, i);
      NonEmptySnoc(record[..i], record[i]);
      if |record[i]| == 0 {
        continue;
      }
      labels := labels + [record[i]];
    }
    assert record[..|record|] == record;
    labels := labels + [ScopedLabel(stateKey, version.state)];
  }

  /**
   * Every label list ends with exactly the scoped state label; the labels
   * before it are the tags (for a ticket) or the non-empty fields (for a
   * version), in order, so a version's list has no empty entry but the last
   * label's own parts.
   */
  lemma LabelListsShape(tags: seq<string>, record: seq<string>, stateKey: string, state: string)
    ensures var l := TicketLabelList(tags, stateKey, state);
      |l| == |tags| + 1 && l[..|tags|] == tags && l[|tags|] == stateKey + "::" + state
    ensures var l := VersionLabelList(record, stateKey, state);
      |l| <= |record| + 1 && l[|l| - 1] == stateKey + "::" + state &&
      forall k :: 0 <= k < |l| - 1 ==> l[k] != [] && l[k] in record
    ensures (forall k :: 0 <= k < |record| ==> record[k] != []) ==>
      VersionLabelList(record, stateKey, state) == record + [stateKey + "::" + state]
  {
    var l := TicketLabelList(tags, stateKey, state);
    assert l[..|tags|] == tags;
    if forall k :: 0 <= k < |record| ==> record[k] != [] {
      NonEmptyKeepsAll(record);
    }
  }

  /** When the CSV reader fails, the version's labels are its white-space separated words. */
  lemma VersionLabelsFallBack(csv: string -> Option<seq<string>>, tag: string, stateKey: string, state: string)
    requires csv(tag).None?
    ensures VersionLabelList(VersionRecord(csv, tag), stateKey, state) == FieldsBy(tag, IsSpace) + [stateKey + "::" + state]
    ensures forall k, i :: 0 <= k < |FieldsBy(tag, IsSpace)| && 0 <= i < |FieldsBy(tag, IsSpace)[k]| ==>
      !IsSpace(FieldsBy(tag, IsSpace)[k][i])
  {
    FieldsShape(tag, IsSpace);
    NonEmptyKeepsAll(FieldsBy(tag, IsSpace));
  }

  // ---------------------------------------------------------------- issues

  /** `lhTicketVersionToUpdateIssue`: always succeeds. */
  method VersionToUpdateIssue(t: Tables, csv: string -> Option<seq<string>>, version: LhVersion, stateKey: string)
    returns (opt: UpdateIssueOptions, sudo: seq<RequestOption>, ok: bool)
    ensures ok && sudo == SudoByUserID(t, version.userID)
    ensures opt.title == version.title && opt.updatedAt == version.updatedAt
    ensures opt.assigneeIDs == Assignees(t, version.assignedUserID)
    ensures opt.milestoneID == MilestoneRef(t, version.milestoneID)
    ensures opt.labels == VersionLabelList(VersionRecord(csv, version.tag), stateKey, version.state)
    ensures opt.stateEvent == (if version.closed then "close" else "reopen")
  {
    sudo := SudoByUserID(t, version.userID);
    var assigneeIDs := Assignees(t, version.assignedUserID);
    var milestoneID := MilestoneRef(t, version.milestoneID);
    var labels := VersionToLabels(csv, version, stateKey);
    var stateEvent := if version.closed then "close" else "reopen";
    opt := UpdateIssueOptions(version.title, assigneeIDs, milestoneID, labels, stateEvent, version.updatedAt);
    ok := true;
  }

  /**
   * `lhTicketToCreateIssue`: the ticket's number, title, converted body and
   * creation time; its assignee, milestone and labels, unless it has
   * versions, in which case those three come from its first version.
   */
  method TicketToCreateIssue(t: Tables, csv: string -> Option<seq<string>>, ticket: LhTicket, stateKey: string)
    returns (opt: CreateIssueOptions, sudo: seq<RequestOption>, ok: bool)
    ensures ok && sudo == SudoByUserID(t, ticket.creatorID)
    ensures opt.iid == ticket.number && opt.title == ticket.title && opt.createdAt == ticket.createdAt
    ensures opt.description == Markdown.ToGitLab(ticket.body)
    ensures ticket.versions == [] ==>
      && opt.assigneeIDs == Assignees(t, ticket.assignedUserID)
      && opt.milestoneID == MilestoneRef(t, ticket.milestoneID)
      && opt.labels == TicketLabelList(ticket.tags, stateKey, ticket.state)
    ensures ticket.versions != [] ==>
      && opt.assigneeIDs == Assignees(t, ticket.versions[0].assignedUserID)
      && opt.milestoneID == MilestoneRef(t, ticket.versions[0].milestoneID)
      && opt.labels == VersionLabelList(VersionRecord(csv, ticket.versions[0].tag), stateKey, ticket.versions[0].state)
  {
    sudo := SudoByUserID(t, ticket.creatorID);
    var description := Markdown.LhToGitLabMarkdown(ticket.body);
    var assigneeIDs := Assignees(t, ticket.assignedUserID);
    var milestoneID := MilestoneRef(t, ticket.milestoneID);
    var labels := TicketToLabels(ticket, stateKey);
    if |ticket.versions| > 0 {
      var update, _, updated := VersionToUpdateIssue(t, csv, ticket.versions[0], stateKey);
      if updated {
        assigneeIDs := update.assigneeIDs;
        milestoneID := update.milestoneID;
        labels := update.labels;
      }
    }
    opt := CreateIssueOptions(ticket.number, ticket.title, description, assigneeIDs, milestoneID, labels, ticket.createdAt);
    ok := true;
  }

  // ---------------------------------------------------------------- notes

  /** Append one part to a note body, with a blank line between it and a non-empty body. */
  function AppendPart(body: string, part: string): string {
    if |body| > 0 then body + "\n\n" + part else body + part
  }

  /** The note body assembled from its parts, in order. */
  function Assemble(parts: seq<string>): string
    decreases |parts|
  {
    if parts == [] then "" else AppendPart(Assemble(parts[..|parts| - 1]), parts[|parts| - 1])
  }

  /** One more part is appended to the body assembled so far. */
  lemma AssembleSnoc(parts: seq<string>, part: string)
    ensures Assemble(parts + [part]) == AppendPart(Assemble(parts), part)
  {
    assert (parts + [part])[..|parts|] == parts;
  }

  /** The parts of a version's note: its converted body unless it is the current version, then the uploaded files' markdown. */
  function NoteParts(versionBody: string, currentVersion: bool, files: seq<string>): seq<string> {
    (if currentVersion then [] else [Markdown.ToGitLab(versionBody)]) + files
  }

  /**
   * `lhTicketVersionToCreateIssueNote`: the assembled body and the version's
   * creation time, or nothing when that body is blank.
   */
  method VersionToCreateNote(t: Tables, version: LhVersion, currentVersion: bool, files: seq<string>)
    returns (opt: Option<NoteOptions>, sudo: seq<RequestOption>, ok: bool)
    ensures var body := Assemble(NoteParts(version.body, currentVersion, files));
      && (ok <==> !IsBlank(body))
      && (ok ==> opt == Some(NoteOptions(body, version.createdAt)) && sudo == SudoByUserID(t, version.userID))
      && (!ok ==> opt.None? && sudo == [])
  {
    var options := SudoByUserID(t, version.userID);
    var first: seq<string> := [];
    var body := "";
    if !currentVersion {
      var converted := Markdown.LhToGitLabMarkdown(version.body);
      body := body + converted;
      first := [converted];
      assert Assemble(first) == AppendPart(Assemble([]), converted);
    }
    for i := 0 to |files|
      invariant body == Assemble(first + files[..i])
    {
      TakeSnoc(files, i);
      AppendAssoc(first, files[..i], [files[i]]);
      AssembleSnoc(first + files[..i], files[i]);
      if |body| > 0 {
        body := body + "\n\n";
      }
      body := body + files[i];
    }
    assert first + files[..|files|] == NoteParts(version.body, currentVersion, files);
    if |TrimSpace(body)| == 0 {
      return None, [], false;
    }
    opt := Some(NoteOptions(body, version.createdAt));
    sudo := options;
    ok := true;
  }

  /** `s` is made only of white space. */
  predicate AllSpace(s: string) {
    forall j :: 0 <= j < |s| ==> IsSpace(s[j])
  }

  lemma AllSpaceConcat(a: string, b: string)
    ensures AllSpace(a + b) <==> AllSpace(a) && AllSpace(b)
  {
    assert forall j :: 0 <= j < |a| ==> a[j] == (a + b)[j];
    assert forall j :: 0 <= j < |b| ==> b[j] == (a + b)[|a| + j];
  }

  /** A note is white space exactly when every one of its parts is: the separators add no text. */
  lemma {:induction false} AssembleAllSpace(parts: seq<string>)
    ensures AllSpace(Assemble(parts)) <==> forall k :: 0 <= k < |parts| ==> AllSpace(parts[k])
    decreases |parts|
  {
    if parts != [] {
      var init, last := parts[..|parts| - 1], parts[|parts| - 1];
      AssembleAllSpace(init);
      var a := Assemble(init);
      if |a| > 0 {
        assert AllSpace("\n\n");
        AllSpaceConcat(a, "\n\n");
        AllSpaceConcat(a + "\n\n", last);
      } else {
        AllSpaceConcat(a, last);
      }
      assert forall k :: 0 <= k < |init| ==> init[k] == parts[k];
    }
  }

  /** A note is blank exactly when every one of its parts is blank, so a blank note is never sent. */
  lemma AssembleBlank(parts: seq<string>)
    ensures IsBlank(Assemble(parts)) <==> forall k :: 0 <= k < |parts| ==> IsBlank(parts[k])
  {
    BlankIffAllSpace(Assemble(parts));
    AssembleAllSpace(parts);
    forall k | 0 <= k < |parts| ensures IsBlank(parts[k]) <==> AllSpace(parts[k]) {
      BlankIffAllSpace(parts[k]);
    }
  }

  /** With no empty part, the note is its parts joined by blank lines. */
  lemma {:induction false} AssembleJoin(parts: seq<string>)
    requires forall k :: 0 <= k < |parts| ==> parts[k] != []
    ensures Assemble(parts) == Join(parts, "\n\n")
    decreases |parts|
  {
    if parts != [] {
      var init, last := parts[..|parts| - 1], parts[|parts| - 1];
      AssembleJoin(init);
      assert parts == init + [last];
      if init == [] {
        assert Assemble(parts) == "" + last;
      } else {
        JoinSnoc(init, last, "\n\n");
        assert |Join(init, "\n\n")| > 0 by {
          JoinFirst(init, "\n\n");
        }
      }
    }
  }

  /** A join of non-empty strings starts with its first one, so it is not empty. */
  lemma {:induction false} JoinFirst(xs: seq<string>, sep: string)
    requires xs != [] && xs[0] != []
    ensures |Join(xs, sep)| >= |xs[0]|
  {
  }

  /** The current version's note carries only the uploaded files; the others start with the converted body. */
  lemma NoteOmitsCurrentBody(versionBody: string, files: seq<string>)
    ensures Assemble(NoteParts(versionBody, true, files)) == Assemble(files)
    ensures files == [] ==> Assemble(NoteParts(versionBody, false, files)) == Markdown.ToGitLab(versionBody)
  {
    assert [] + files == files;
    if files == [] {
      assert NoteParts(versionBody, false, files) == [Markdown.ToGitLab(versionBody)];
    }
  }

  // ---------------------------------------------------------------- projects

  /**
   * `lhProjectToCreateProject`: a private project under the sanitised name,
   * in the group of that name when there is one, described by the converted
   * description.
   */
  function ProjectToCreate(t: Tables, p: Projects.Project): (r: (CreateProjectOptions, seq<RequestOption>, bool))
    ensures r.2 && r.1 == []
    ensures r.0.name == SanitizeProjectName(p.name)
    ensures r.0.namespaceID.Some? <==> SanitizeProjectName(p.name) in t.groups
    ensures r.0.namespaceID.Some? ==> r.0.namespaceID.value == t.groups[SanitizeProjectName(p.name)].id
    ensures r.0.description == Markdown.ToGitLab(p.description) && r.0.visibility == PrivateVisibility
  {
    var name := SanitizeProjectName(p.name);
    var namespaceID := if name in t.groups then Some(t.groups[name].id) else None;
    (CreateProjectOptions(name, namespaceID, Markdown.ToGitLab(p.description), PrivateVisibility), [], true)
  }

  /**
   * `lhMembershipToAddProjectMember`: the mapped user as a maintainer, or
   * nothing when the membership's user was not migrated.
   */
  function MembershipToAddMember(t: Tables, m: Projects.Membership): (r: (Option<AddMemberOptions>, seq<RequestOption>, bool))
    ensures r.1 == []
    ensures r.2 <==> m.userID != 0 && m.userID in t.users && t.users[m.userID].Some?
    ensures r.2 ==> r.0 == Some(AddMemberOptions(t.users[m.userID].value.id, MaintainerPermissions))
    ensures !r.2 ==> r.0.None?
  {
    var u := ByID(t.users, m.userID);
    if u.None? then (None, [], false)
    else (Some(AddMemberOptions(u.value.id, MaintainerPermissions)), [], true)
  }

  // ---------------------------------------------------------------- milestones

  /**
   * `lhMilestoneToCreateMilestone`: the start date is the creation time; the
   * due date is the due time, but only when the milestone was not created
   * after or at it.
   */
  function MilestoneToCreate(t: Tables, m: LhMilestone): (r: (CreateMilestoneOptions, seq<RequestOption>, bool))
    ensures r.2 && r.1 == SudoByUsername(t, m.userName)
    ensures r.0.title == m.title && r.0.description == Markdown.ToGitLab(m.goals)
    ensures r.0.startDate == m.createdAt
    ensures r.0.dueDate.Some? <==> m.dueOn.Some? && (m.createdAt.None? || m.dueOn.value > m.createdAt.value)
    ensures r.0.dueDate.Some? ==> r.0.dueDate == m.dueOn
  {
    var startDate := if m.createdAt.Some? then m.createdAt else None;
    var dueDate := if m.dueOn.Some? && (m.createdAt.None? || m.dueOn.value > m.createdAt.value) then m.dueOn else None;
    (CreateMilestoneOptions(m.title, Markdown.ToGitLab(m.goals), startDate, dueDate), SudoByUsername(t, m.userName), true)
  }

  /** A created milestone never ends before it starts. */
  lemma MilestoneDatesOrdered(t: Tables, m: LhMilestone)
    ensures var o := MilestoneToCreate(t, m).0;
      o.startDate.Some? && o.dueDate.Some? ==> o.startDate.value < o.dueDate.value
  {
  }

  /** `lhMilestoneToUpdateMilestone`: close a completed milestone, activate any other. */
  function MilestoneToUpdate(t: Tables, m: LhMilestone): (r: (UpdateMilestoneOptions, seq<RequestOption>, bool))
    ensures r.2 && r.1 == SudoByUsername(t, m.userName)
    ensures r.0.stateEvent == "close" <==> m.completedAt.Some?
    ensures r.0.stateEvent == "activate" <==> m.completedAt.None?
  {
    var stateEvent := if m.completedAt.Some? then "close" else "activate";
    (UpdateMilestoneOptions(stateEvent), SudoByUsername(t, m.userName), true)
  }

  // ---------------------------------------------------------------- memberships

  /** The user IDs of a list of memberships. */
  function UserIDs(ms: seq<Projects.Membership>): set<int> {
    set i | 0 <= i < |ms| :: ms[i].userID
  }

  /** The memberships kept: the first one of each user, in their original order. */
  function FirstPerUser(ms: seq<Projects.Membership>): seq<Projects.Membership>
    decreases |ms|
  {
    if ms == [] then []
    else
      var init, last := ms[..|ms| - 1], ms[|ms| - 1];
      if last.userID in UserIDs(init) then FirstPerUser(init) else FirstPerUser(init) + [last]
  }

  lemma UserIDsSnoc(ms: seq<Projects.Membership>, m: Projects.Membership)
    ensures UserIDs(ms + [m]) == UserIDs(ms) + {m.userID}
  {
    var ys := ms + [m];
    assert forall i :: 0 <= i < |ms| ==> ys[i] == ms[i];
    assert ys[|ms|] == m;
  }

  /** The membership de-duplication in `readLHExport`. */
  method DedupMemberships(memberships: seq<Projects.Membership>) returns (unique: seq<Projects.Membership>)
    ensures unique == FirstPerUser(memberships)
  {
    unique := [];
    var seen: set<int> := {};
    for i := 0 to |memberships|
      invariant unique == FirstPerUser(memberships[..i])
      invariant seen == UserIDs(memberships[..i])
    {
      var membership := memberships[i];
      TakeSnoc(memberships, i);
      assert memberships[..i + 1][..i] == memberships[..i];
      UserIDsSnoc(memberships[..i], membership);
      if membership.userID in seen {
        continue;
      }
      unique := unique + [membership];
      seen := seen + {membership.userID};
    }
    assert memberships[..|memberships|] == memberships;
  }

  /** `m` is in `ms`, and no earlier membership in `ms` has its user. */
  predicate FirstIn(ms: seq<Projects.Membership>, m: Projects.Membership) {
    exists i :: 0 <= i < |ms| && ms[i] == m && forall j :: 0 <= j < i ==> ms[j].userID != m.userID
  }

  /**
   * The kept memberships cover every user exactly once, and each is the
   * first membership of its user in the input.
   */
  lemma {:induction false} FirstPerUserExact(ms: seq<Projects.Membership>)
    ensures UserIDs(FirstPerUser(ms)) == UserIDs(ms)
    ensures forall a, b :: 0 <= a < b < |FirstPerUser(ms)| ==> FirstPerUser(ms)[a].userID != FirstPerUser(ms)[b].userID
    ensures forall k :: 0 <= k < |FirstPerUser(ms)| ==> FirstIn(ms, FirstPerUser(ms)[k])
    decreases |ms|
  {
    if ms != [] {
      var init, last := ms[..|ms| - 1], ms[|ms| - 1];
      FirstPerUserExact(init);
      assert ms == init + [last];
      UserIDsSnoc(init, last);
      var u := FirstPerUser(init);
      assert forall i :: 0 <= i < |init| ==> init[i] == ms[i];
      if last.userID !in UserIDs(init) {
        UserIDsSnoc(u, last);
        var r := u + [last];
        forall a, b | 0 <= a < b < |r| ensures r[a].userID != r[b].userID {
          if b == |u| {
            assert r[a] == u[a];
            assert u[a].userID in UserIDs(u);
          }
        }
        forall k | 0 <= k < |r| ensures FirstIn(ms, r[k]) {
          if k == |u| {
            forall j | 0 <= j < |ms| - 1 ensures ms[j].userID != ms[|ms| - 1].userID {
              assert init[j].userID in UserIDs(init);
            }
          } else {
            assert r[k] == u[k];
          }
        }
      }
    }
  }

  // ---------------------------------------------------------------- export order

  /** `xs` is in ascending order of `key`. */
  predicate SortedBy<T>(xs: seq<T>, key: T -> int) {
    forall i, j :: 0 <= i < j < |xs| ==> key(xs[i]) <= key(xs[j])
  }

  /** Insert `x` into the sorted `ys`, before the first element whose key is not smaller. */
  function InsertBy<T(==)>(x: T, ys: seq<T>, key: T -> int): (r: seq<T>)
    requires SortedBy(ys, key)
    ensures |r| == |ys| + 1 && (r[0] == x || (ys != [] && r[0] == ys[0]))
    ensures SortedBy(r, key)
    ensures multiset(r) == multiset(ys) + multiset{x}
    decreases |ys|
  {
    if ys == [] || key(x) <= key(ys[0]) then
      SortedCons(x, ys, key);
      [x] + ys
    else
      SortedTail(ys, key);
      var rest := InsertBy(x, ys[1..], key);
      assert key(ys[0]) <= key(rest[0]);
      SortedCons(ys[0], rest, key);
      assert ys == [ys[0]] + ys[1..];
      [ys[0]] + rest
  }

  /** Dropping the first element keeps the order. */
  lemma SortedTail<T>(ys: seq<T>, key: T -> int)
    requires ys != [] && SortedBy(ys, key)
    ensures SortedBy(ys[1..], key)
  {
    forall i, j | 0 <= i < j < |ys| - 1 ensures key(ys[1..][i]) <= key(ys[1..][j]) {
      assert ys[1..][i] == ys[i + 1] && ys[1..][j] == ys[j + 1];
    }
  }

  /** An element whose key is at most the first key of a sorted sequence can go in front. */
  lemma SortedCons<T>(y: T, ys: seq<T>, key: T -> int)
    requires SortedBy(ys, key) && (ys == [] || key(y) <= key(ys[0]))
    ensures SortedBy([y] + ys, key)
  {
    var r := [y] + ys;
    forall i, j | 0 <= i < j < |r| ensures key(r[i]) <= key(r[j]) {
      assert r[j] == ys[j - 1];
      if i == 0 {
        assert key(ys[0]) <= key(ys[j - 1]) || j == 1;
      } else {
        assert r[i] == ys[i - 1];
      }
    }
  }

  /**
   * The `sort.Slice` calls of `readLHExport`, which order the users,
   * milestones and projects by ID and the tickets by number: the result is
   * in ascending key order and holds the same elements as the input.
   */
  function SortBy<T(==)>(xs: seq<T>, key: T -> int): (r: seq<T>)
    ensures SortedBy(r, key)
    ensures multiset(r) == multiset(xs)
    decreases |xs|
  {
    if xs == [] then []
    else
      assert xs == [xs[0]] + xs[1..];
      InsertBy(xs[0], SortBy(xs[1..], key), key)
  }

  // ---------------------------------------------------------------- names

  /** `sanitizeProjectName`: every apostrophe removed, every other character kept. */
  function SanitizeProjectName(name: string): (r: string)
    ensures '\'' !in r
    ensures forall c :: c != '\'' ==> multiset(r)[c] == multiset(name)[c]
  {
    Without(name, '\'')
  }

  /** Sanitising works character by character: a concatenation is sanitised piece by piece, in order. */
  lemma {:induction false} SanitizeAppend(a: string, b: string)
    ensures SanitizeProjectName(a + b) == SanitizeProjectName(a) + SanitizeProjectName(b)
    decreases |a|
  {
    if a == [] {
      assert a + b == b;
    } else {
      assert (a + b)[0] == a[0];
      assert (a + b)[1..] == a[1..] + b;
      SanitizeAppend(a[1..], b);
      var rest := SanitizeProjectName(a[1..]);
      if a[0] != '\'' {
        assert SanitizeProjectName(a + b) == [a[0]] + (rest + SanitizeProjectName(b));
        assert SanitizeProjectName(a) == [a[0]] + rest;
      }
    }
  }

  /** A single apostrophe disappears; any other single character is kept. */
  lemma SanitizeSingle(c: char)
    ensures SanitizeProjectName([c]) == if c == '\'' then [] else [c]
  {
  }

  /** A name without apostrophes is left as it is, so sanitising twice changes nothing. */
  lemma {:induction false} SanitizeKeeps(name: string)
    requires '\'' !in name
    ensures SanitizeProjectName(name) == name
    decreases |name|
  {
    if name != [] {
      assert name[0] != '\'';
      assert '\'' !in name[1..];
      SanitizeKeeps(name[1..]);
    }
  }

  lemma SanitizeIdempotent(name: string)
    ensures SanitizeProjectName(SanitizeProjectName(name)) == SanitizeProjectName(name)
  {
    SanitizeKeeps(SanitizeProjectName(name));
  }
}
