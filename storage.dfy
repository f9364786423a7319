/**
 * The client-side store (`src/lib/storage.ts`). Browser `localStorage`
 * is an in-memory map from key to stored value; the typed `Stored`
 * variant stands for the JSON text `JSON.stringify` would write under
 * each key, so `JSON.parse` of it gives the value back.
 */
module Storage {
  import opened Wrappers
  import opened Wire

  datatype LlmSettings = LlmSettings(baseUrl: string, apiKey: string, modelName: string)

  /** A stored chat turn; stored turns use the roles User and Assistant only. */
  datatype ChatMessage = ChatMessage(id: string, role: Role, content: string, timestamp: string)

  datatype Chapter = Chapter(
    id: string,
    title: string,
    description: string,
    objectives: seq<string>,
    completed: bool,
    messages: seq<ChatMessage>)

  datatype StudyProject = StudyProject(
    id: string,
    title: string,
    topic: string,
    goal: string,
    level: int,
    timePerDay: int,
    durationDays: int,
    chapters: seq<Chapter>,
    learningObjectives: seq<string>,
    createdAt: string,
    progress: int)

  datatype JournalEntry = JournalEntry(
    id: string,
    title: string,
    content: string,
    createdAt: string,
    updatedAt: string,
    messages: seq<ChatMessage>)

  datatype SkillDimension = SkillDimension(name: string, score: int, maxScore: int)

  datatype UserProfile = UserProfile(
    dimensions: seq<SkillDimension>,
    totalLearningMinutes: int,
    completedChapters: int)

  datatype AuthUser = AuthUser(id: string, username: string)

  /** The value held under one storage key. */
  datatype Stored =
    | SettingsValue(settings: LlmSettings)
    | ProjectsValue(projects: seq<StudyProject>)
    | JournalsValue(journals: seq<JournalEntry>)
    | ProfileValue(profile: UserProfile)
    | AuthUserValue(user: AuthUser)
    | TokenValue(token: string)

  const LlmSettingsKey: string := "yinxue_llm_settings"
  const ProjectsKey: string := "yinxue_projects"
  const JournalsKey: string := "yinxue_journals"
  const UserProfileKey: string := "yinxue_profile"
  const AuthUserKey: string := "yinxue_auth_user"
  const AuthTokenKey: string := "yinxue_auth_token"

  function ProjectId(p: StudyProject): string { p.id }
  function JournalId(j: JournalEntry): string { j.id }
  function DimensionName(d: SkillDimension): string { d.name }

  // ---------------------------------------------------------------------
  // Array operations on lists of records identified by a key

  /** `xs.findIndex(x => key(x) === id)`: the first match, or -1. */
  function FindIndex<T>(xs: seq<T>, id: string, key: T -> string): (r: int)
    ensures -1 <= r < |xs|
    ensures r == -1 <==> forall i :: 0 <= i < |xs| ==> key(xs[i]) != id
    ensures r >= 0 ==> key(xs[r]) == id && forall i :: 0 <= i < r ==> key(xs[i]) != id
  {
    if xs == [] then -1
    else if key(xs[0]) == id then 0
    else
      var r := FindIndex(xs[1..], id, key);
      if r == -1 then -1 else r + 1
  }

  /** `xs.find(x => key(x) === id)`: the first match, or undefined. */
  function Find<T>(xs: seq<T>, id: string, key: T -> string): (r: Option<T>)
    ensures r.Some? ==> r.value in xs && key(r.value) == id
    ensures r.None? <==> forall i :: 0 <= i < |xs| ==> key(xs[i]) != id
  {
    if xs == [] then None
    else if key(xs[0]) == id then Some(xs[0])
    else Find(xs[1..], id, key)
  }

  /** `find` and `findIndex` agree: both stop at the first match. */
  lemma {:induction false} FindAtFindIndex<T>(xs: seq<T>, id: string, key: T -> string)
    ensures var i := FindIndex(xs, id, key);
      Find(xs, id, key) == if i >= 0 then Some(xs[i]) else None
  {
    if xs != [] && key(xs[0]) != id {
      FindAtFindIndex(xs[1..], id, key);
    }
  }

  /** `saveProject`/`saveJournal`: replace the first record with the same key, else append. */
  function Upsert<T>(xs: seq<T>, x: T, key: T -> string): (r: seq<T>)
    ensures x in r && |xs| <= |r| <= |xs| + 1
    ensures forall y <- r :: y == x || y in xs
  {
    var i := FindIndex(xs, key(x), key);
    if i >= 0 then assert xs[i := x][i] == x; xs[i := x]
    else assert (xs + [x])[|xs|] == x; xs + [x]
  }

  /** `xs.filter(x => key(x) !== id)`. */
  function RemoveKey<T>(xs: seq<T>, id: string, key: T -> string): (r: seq<T>)
    ensures |r| <= |xs|
    ensures forall y <- r :: y in xs && key(y) != id
  {
    if xs == [] then []
    else if key(xs[0]) == id then RemoveKey(xs[1..], id, key)
    else [xs[0]] + RemoveKey(xs[1..], id, key)
  }

  /** Saving over an existing key replaces the first match and nothing else. */
  lemma UpsertReplaces<T>(xs: seq<T>, x: T, key: T -> string)
    requires FindIndex(xs, key(x), key) >= 0
    ensures var i, r := FindIndex(xs, key(x), key), Upsert(xs, x, key);
      && |r| == |xs| && r[i] == x
      && forall j :: 0 <= j < |xs| && j != i ==> r[j] == xs[j]
  {
  }

  /** Saving a new key appends the record at the end. */
  lemma UpsertAppends<T>(xs: seq<T>, x: T, key: T -> string)
    requires forall i :: 0 <= i < |xs| ==> key(xs[i]) != key(x)
    ensures Upsert(xs, x, key) == xs + [x]
    ensures |Upsert(xs, x, key)| == |xs| + 1
  {
  }

  /** After saving `x`, looking up its key returns `x`. */
  lemma {:induction false} FindAfterUpsert<T>(xs: seq<T>, x: T, key: T -> string)
    ensures Find(Upsert(xs, x, key), key(x), key) == Some(x)
  {
    var r := Upsert(xs, x, key);
    var i := FindIndex(xs, key(x), key);
    FindAtFindIndex(r, key(x), key);
    if i >= 0 {
      assert FindIndex(r, key(x), key) == i by {
        FindIndexUnique(r, key(x), key, i);
      }
    } else {
      assert FindIndex(r, key(x), key) == |xs| by {
        FindIndexUnique(r, key(x), key, |xs|);
      }
    }
  }

  /** The first match is determined by its characterisation. */
  lemma FindIndexUnique<T>(xs: seq<T>, id: string, key: T -> string, i: nat)
    requires i < |xs| && key(xs[i]) == id
    requires forall j :: 0 <= j < i ==> key(xs[j]) != id
    ensures FindIndex(xs, id, key) == i
  {
  }

  /** Saving `x` does not change what any other key looks up. */
  lemma {:induction false} FindOtherAfterUpsert<T>(xs: seq<T>, x: T, id: string, key: T -> string)
    requires id != key(x)
    ensures Find(Upsert(xs, x, key), id, key) == Find(xs, id, key)
  {
    var r := Upsert(xs, x, key);
    FindAtFindIndex(r, id, key);
    FindAtFindIndex(xs, id, key);
    var k := FindIndex(xs, id, key);
    var i := FindIndex(xs, key(x), key);
    if i >= 0 {
      if k >= 0 {
        FindIndexUnique(r, id, key, k);
      }
    } else {
      if k >= 0 {
        FindIndexUnique(r, id, key, k);
      }
    }
  }

  /** Two stored saves of one journal id leave the store as the second save alone would. */
  lemma SaveJournalTwice(items: map<string, Stored>, before: seq<JournalEntry>, first: JournalEntry, second: JournalEntry)
    requires first.id == second.id
    ensures var once := items[JournalsKey := JournalsValue(Upsert(before, first, JournalId))];
      once[JournalsKey := JournalsValue(Upsert(Upsert(before, first, JournalId), second, JournalId))]
      == items[JournalsKey := JournalsValue(Upsert(before, second, JournalId))]
  {
    UpsertTwice(before, first, second, JournalId);
  }

  /** Saving two records with one key leaves what saving the second alone does. */
  lemma {:induction false} UpsertTwice<T>(xs: seq<T>, a: T, b: T, key: T -> string)
    requires key(a) == key(b)
    ensures Upsert(Upsert(xs, a, key), b, key) == Upsert(xs, b, key)
  {
    var i := FindIndex(xs, key(a), key);
    var r := Upsert(xs, a, key);
    if i >= 0 {
      FindIndexUnique(r, key(a), key, i);
    } else {
      FindIndexUnique(r, key(a), key, |xs|);
    }
  }

  /** Deleting removes every record with the key and keeps the others in order. */
  lemma {:induction false} RemoveKeySpec<T>(xs: seq<T>, id: string, key: T -> string)
    ensures var r := RemoveKey(xs, id, key);
      && |r| <= |xs|
      && (forall i :: 0 <= i < |r| ==> key(r[i]) != id)
      && Find(r, id, key) == None
      && (forall id' :: id' != id ==> Find(r, id', key) == Find(xs, id', key))
  {
    if xs != [] {
      RemoveKeySpec(xs[1..], id, key);
      var t := RemoveKey(xs[1..], id, key);
      if key(xs[0]) != id {
        assert ([xs[0]] + t)[1..] == t;
      }
    }
  }

  /** A one-record list loses its record exactly when it has the key. */
  lemma RemoveKeySingle<T>(x: T, id: string, key: T -> string)
    ensures RemoveKey([x], id, key) == if key(x) == id then [] else [x]
  {
    assert [x][1..] == [];
  }

  /**
   * Deleting from a concatenation deletes from each part: with the
   * one-record case, the survivors are the records without the key, in
   * their original order.
   */
  lemma {:induction false} RemoveKeyAppend<T>(a: seq<T>, b: seq<T>, id: string, key: T -> string)
    ensures RemoveKey(a + b, id, key) == RemoveKey(a, id, key) + RemoveKey(b, id, key)
  {
    if a == [] {
      assert a + b == b;
    } else {
      assert (a + b)[0] == a[0] && (a + b)[1..] == a[1..] + b;
      RemoveKeyAppend(a[1..], b, id, key);
    }
  }

  /** Records with any other key survive a delete. */
  lemma {:induction false} RemoveKeyKeepsOthers<T>(xs: seq<T>, id: string, key: T -> string, y: T)
    requires y in xs && key(y) != id
    ensures y in RemoveKey(xs, id, key)
  {
    if xs[0] != y {
      RemoveKeyKeepsOthers(xs[1..], id, key, y);
    }
  }

  // ---------------------------------------------------------------------
  // The user profile

  function Min(a: int, b: int): int { if a <= b then a else b }

  /** The profile `getUserProfile` returns when none is stored. */
  const DefaultProfile: UserProfile := UserProfile(
    [ SkillDimension("哲学", 0, 100), SkillDimension("历史", 0, 100), SkillDimension("文学", 0, 100),
      SkillDimension("科学", 0, 100), SkillDimension("艺术", 0, 100), SkillDimension("技术", 0, 100) ],
    0, 0)

  lemma DefaultProfileShape()
    ensures |DefaultProfile.dimensions| == 6
    ensures forall d :: d in DefaultProfile.dimensions ==> d.score == 0 && d.maxScore == 100
    ensures DefaultProfile.totalLearningMinutes == 0 && DefaultProfile.completedChapters == 0
  {
  }

  /** `updateDimension`'s change to the dimension list. */
  function AwardPoints(dims: seq<SkillDimension>, name: string, points: int): (r: seq<SkillDimension>)
    ensures |dims| <= |r| <= |dims| + 1
    ensures exists i :: 0 <= i < |r| && r[i].name == name
  {
    var i := FindIndex(dims, name, DimensionName);
    if i >= 0 then
      var r := dims[i := dims[i].(score := Min(dims[i].score + points, dims[i].maxScore))];
      assert r[i].name == DimensionName(dims[i]);
      r
    else
      var r := dims + [SkillDimension(name, points, 100)];
      assert r[|dims|].name == name;
      r
  }

  /** A known dimension gets its score raised and capped at its maximum; nothing else changes. */
  lemma AwardPointsKnown(dims: seq<SkillDimension>, name: string, points: int)
    requires FindIndex(dims, name, DimensionName) >= 0
    ensures var i, r := FindIndex(dims, name, DimensionName), AwardPoints(dims, name, points);
      && |r| == |dims|
      && r[i].name == name && r[i].maxScore == dims[i].maxScore
      && r[i].score == Min(dims[i].score + points, dims[i].maxScore)
      && r[i].score <= dims[i].maxScore
      && forall j :: 0 <= j < |dims| && j != i ==> r[j] == dims[j]
  {
  }

  /** An unknown dimension is appended with the points as its score, uncapped, out of 100. */
  lemma AwardPointsUnknown(dims: seq<SkillDimension>, name: string, points: int)
    requires forall i :: 0 <= i < |dims| ==> dims[i].name != name
    ensures AwardPoints(dims, name, points) == dims + [SkillDimension(name, points, 100)]
  {
    assert FindIndex(dims, name, DimensionName) == -1;
  }

  // ---------------------------------------------------------------------
  // The store

  class LocalStore {
    var items: map<string, Stored>

    constructor (items: map<string, Stored>)
      ensures this.items == items
    {
      this.items := items;
    }

    /** `getLLMSettings`: the stored settings, or null. */
    function GetLlmSettings(): (r: Option<LlmSettings>)
      reads this
      ensures r.Some? <==> LlmSettingsKey in items && items[LlmSettingsKey].SettingsValue?
    {
      if LlmSettingsKey in items && items[LlmSettingsKey].SettingsValue?
      then Some(items[LlmSettingsKey].settings) else None
    }

    method SaveLlmSettings(settings: LlmSettings)
      modifies this
      ensures items == old(items)[LlmSettingsKey := SettingsValue(settings)]
      ensures GetLlmSettings() == Some(settings)
    {
      items := items[LlmSettingsKey := SettingsValue(settings)];
    }

    /** `getAuthUser`: the stored user, or null. */
    function GetAuthUser(): (r: Option<AuthUser>)
      reads this
      ensures r.Some? <==> AuthUserKey in items && items[AuthUserKey].AuthUserValue?
    {
      if AuthUserKey in items && items[AuthUserKey].AuthUserValue?
      then Some(items[AuthUserKey].user) else None
    }

    method SaveAuthUser(user: AuthUser)
      modifies this
      ensures items == old(items)[AuthUserKey := AuthUserValue(user)]
    {
      items := items[AuthUserKey := AuthUserValue(user)];
    }

    /** `getAuthToken`: the raw stored token, or null. */
    function GetAuthToken(): (r: Option<string>)
      reads this
      ensures r.Some? <==> AuthTokenKey in items && items[AuthTokenKey].TokenValue?
    {
      if AuthTokenKey in items && items[AuthTokenKey].TokenValue?
      then Some(items[AuthTokenKey].token) else None
    }

    method SaveAuthToken(token: string)
      modifies this
      ensures items == old(items)[AuthTokenKey := TokenValue(token)]
    {
      items := items[AuthTokenKey := TokenValue(token)];
    }

    /** `clearAuth`: remove the auth user and the auth token, nothing else. */
    method ClearAuth()
      modifies this
      ensures items == old(items) - {AuthUserKey, AuthTokenKey}
      ensures GetAuthUser() == None && GetAuthToken() == None
      ensures forall k :: k in old(items) && k != AuthUserKey && k != AuthTokenKey ==> k in items && items[k] == old(items)[k]
    {
      items := items - {AuthUserKey};
      items := items - {AuthTokenKey};
    }

    /** `getProjects`: the stored list, or [] when the key is absent. */
    function GetProjects(): (r: seq<StudyProject>)
      reads this
      ensures ProjectsKey !in items ==> r == []
    {
      if ProjectsKey in items && items[ProjectsKey].ProjectsValue? then items[ProjectsKey].projects else []
    }

    function GetProject(id: string): (r: Option<StudyProject>)
      reads this
      ensures r.Some? ==> r.value.id == id && r.value in GetProjects()
    {
      Find(GetProjects(), id, ProjectId)
    }

    method SaveProject(project: StudyProject)
      modifies this
      ensures items == old(items)[ProjectsKey := ProjectsValue(Upsert(old(GetProjects()), project, ProjectId))]
      ensures GetProject(project.id) == Some(project)
    {
      var projects := GetProjects();
      var index := FindIndex(projects, project.id, ProjectId);
      if index >= 0 {
        projects := projects[index := project];
      } else {
        projects := projects + [project];
      }
      items := items[ProjectsKey := ProjectsValue(projects)];
      FindAfterUpsert(old(GetProjects()), project, ProjectId);
    }

    method DeleteProject(id: string)
      modifies this
      ensures items == old(items)[ProjectsKey := ProjectsValue(RemoveKey(old(GetProjects()), id, ProjectId))]
      ensures GetProject(id) == None
    {
      var projects := RemoveKey(GetProjects(), id, ProjectId);
      RemoveKeySpec(GetProjects(), id, ProjectId);
      items := items[ProjectsKey := ProjectsValue(projects)];
    }

    /** `getJournals`: the stored list, or [] when the key is absent. */
    function GetJournals(): (r: seq<JournalEntry>)
      reads this
      ensures JournalsKey !in items ==> r == []
    {
      if JournalsKey in items && items[JournalsKey].JournalsValue? then items[JournalsKey].journals else []
    }

    function GetJournal(id: string): (r: Option<JournalEntry>)
      reads this
      ensures r.Some? ==> r.value.id == id && r.value in GetJournals()
    {
      Find(GetJournals(), id, JournalId)
    }

    /** Once a save is stored, looking up its id finds the saved entry. */
    lemma JournalStored(before: seq<JournalEntry>, journal: JournalEntry)
      requires JournalsKey in items && items[JournalsKey] == JournalsValue(Upsert(before, journal, JournalId))
      ensures GetJournal(journal.id) == Some(journal)
    {
      FindAfterUpsert(before, journal, JournalId);
    }

    method SaveJournal(journal: JournalEntry)
      modifies this
      ensures items == old(items)[JournalsKey := JournalsValue(Upsert(old(GetJournals()), journal, JournalId))]
      ensures GetJournal(journal.id) == Some(journal)
    {
      var journals := GetJournals();
      var index := FindIndex(journals, journal.id, JournalId);
      if index >= 0 {
        journals := journals[index := journal];
      } else {
        journals := journals + [journal];
      }
      items := items[JournalsKey := JournalsValue(journals)];
      FindAfterUpsert(old(GetJournals()), journal, JournalId);
    }

    method DeleteJournal(id: string)
      modifies this
      ensures items == old(items)[JournalsKey := JournalsValue(RemoveKey(old(GetJournals()), id, JournalId))]
      ensures GetJournal(id) == None
    {
      var journals := RemoveKey(GetJournals(), id, JournalId);
      RemoveKeySpec(GetJournals(), id, JournalId);
      items := items[JournalsKey := JournalsValue(journals)];
    }

    /** `getUserProfile`: the stored profile, or the default one. */
    function GetUserProfile(): (r: UserProfile)
      reads this
      ensures UserProfileKey !in items ==> r == DefaultProfile
    {
      if UserProfileKey in items && items[UserProfileKey].ProfileValue? then items[UserProfileKey].profile
      else DefaultProfile
    }

    method SaveUserProfile(profile: UserProfile)
      modifies this
      ensures items == old(items)[UserProfileKey := ProfileValue(profile)]
    {
      items := items[UserProfileKey := ProfileValue(profile)];
    }

    /** `updateDimension`: award points to a skill dimension and save the profile. */
    method UpdateDimension(name: string, points: int)
      modifies this
      ensures items == old(items)[UserProfileKey := ProfileValue(
        old(GetUserProfile()).(dimensions := AwardPoints(old(GetUserProfile()).dimensions, name, points)))]
    {
      var profile := GetUserProfile();
      var dims := profile.dimensions;
      var index := FindIndex(dims, name, DimensionName);
      if index >= 0 {
        dims := dims[index := dims[index].(score := Min(dims[index].score + points, dims[index].maxScore))];
      } else {
        dims := dims + [SkillDimension(name, points, 100)];
      }
      items := items[UserProfileKey := ProfileValue(profile.(dimensions := dims))];
    }
  }
}
