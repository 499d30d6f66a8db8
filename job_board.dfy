/**
 * The job board's record operations as in-memory tables: jobs by id,
 * swipe interests and acceptances by (user, job), and the conversations
 * opened when a poster confirms a volunteer. Every handler answers with a
 * `Reply` and changes the tables as the server does; the ranking of matched
 * jobs works on given scores.
 */
module JobBoard {
  import opened Wrappers
  import opened Text
  import opened JsonValue
  import opened JobSerializers
  import Sorting

  type UserId = nat
  type JobId = nat

  /** A job record. Times are seconds since the epoch. */
  datatype Job = Job(
    title: string,
    description: string,
    shortDescription: string,
    poster: UserId,
    skillTags: seq<string>,
    accessibilityRequirements: seq<string>,
    latitude: real,
    longitude: real,
    shiftStart: int,
    shiftEnd: int,
    status: string,
    isActive: bool)

  /** A handler's answer: a success status, a refusal with its message, or the create validator's report. */
  datatype Reply =
    | Done(code: nat, message: string)
    | Denied(code: nat, error: string)
    | Invalid(issues: map<JobField, FieldIssue>)

  const JOB_NOT_FOUND: Reply := Denied(404, "Job not found")
  const USER_NOT_FOUND: Reply := Denied(404, "User not found")
  const NO_INTEREST: Reply := Denied(400, "User has not expressed interest in this job.")

  const OPEN: string := "open"
  const PENDING: string := "pending"
  const ACCEPTED: string := "accepted"
  const CONFIRMED: string := "confirmed"

  /** A created job without a start begins a day after creation; without an end it lasts two hours. */
  const DEFAULT_START_DELAY: int := 24 * 3600
  const DEFAULT_SHIFT_LENGTH: int := 2 * 3600

  // ---------------------------------------------------------------------------
  // Accessibility flags

  /** The keys whose value is truthy, in order. */
  function TruthyKeys(entries: seq<(string, Json)>): (keys: seq<string>)
    ensures |keys| <= |entries|
    ensures forall k :: k in keys <==> exists i :: 0 <= i < |entries| && entries[i].0 == k && Truthy(entries[i].1)
  {
    if entries == [] then []
    else
      var rest := TruthyKeys(entries[1..]);
      assert forall i :: 0 < i < |entries| ==> entries[i] == entries[1..][i - 1];
      (if Truthy(entries[0].1) then [entries[0].0] else []) + rest
  }

  /**
   * The flag dictionary as a requirement list: the keys whose value is
   * truthy, in the dictionary's order; anything but a non-empty dictionary
   * gives the empty list.
   */
  function FlagsToRequirements(flags: Json): (r: seq<string>)
    ensures !flags.JObject? ==> r == []
    ensures forall k :: k in r <==>
      flags.JObject? && exists i :: 0 <= i < |flags.entries| && flags.entries[i].0 == k && Truthy(flags.entries[i].1)
  {
    if !Truthy(flags) || !flags.JObject? then [] else TruthyKeys(flags.entries)
  }

  /** Two flags set, two cleared: only the set ones are required, in request order. */
  lemma FlagsExample()
    ensures FlagsToRequirements(JObject([("heavy_lifting", JBool(true)), ("driving_required", JBool(true)),
                                         ("standing_long", JBool(false)), ("outdoor_work", JBool(false))]))
            == ["heavy_lifting", "driving_required"]
  {
    var es := [("heavy_lifting", JBool(true)), ("driving_required", JBool(true)),
               ("standing_long", JBool(false)), ("outdoor_work", JBool(false))];
    assert es[1..][1..][1..][1..] == [];
  }

  // ---------------------------------------------------------------------------
  // Ranking matched jobs

  /** A candidate job with the score and distance the scorer gave it. */
  datatype ScoredJob = ScoredJob(job: JobId, score: real, distance: real)

  function ScoreKey(s: ScoredJob): real {
    s.score
  }

  /** The candidates with a positive score, in candidate order. */
  function Positive(candidates: seq<ScoredJob>): seq<ScoredJob> {
    if candidates == [] then []
    else Positive(candidates[..|candidates| - 1])
         + if candidates[|candidates| - 1].score > 0.0 then [candidates[|candidates| - 1]] else []
  }

  lemma {:induction false} PositiveIsFilter(candidates: seq<ScoredJob>)
    ensures forall i :: 0 <= i < |Positive(candidates)| ==> Positive(candidates)[i].score > 0.0
    ensures multiset(Positive(candidates)) <= multiset(candidates)
    ensures forall c :: c in candidates && c.score > 0.0 ==> c in Positive(candidates)
  {
    if candidates != [] {
      var init := candidates[..|candidates| - 1];
      PositiveIsFilter(init);
      assert candidates == init + [candidates[|candidates| - 1]];
    }
  }

  /** The ranking: positively scored candidates, highest score first, ties in candidate order, cut at `limit`. */
  function MatchedRanking(candidates: seq<ScoredJob>, limit: int): seq<ScoredJob> {
    PyPrefix(Sorting.SortDesc(Positive(candidates), ScoreKey), limit)
  }

  /** The ranking is a prefix of every positively scored candidate sorted by score. */
  lemma MatchedRankingIsPrefix(candidates: seq<ScoredJob>, limit: int)
    ensures var s := Sorting.SortDesc(Positive(candidates), ScoreKey);
      |MatchedRanking(candidates, limit)| <= |s| && MatchedRanking(candidates, limit) == s[..|MatchedRanking(candidates, limit)|]
    ensures 0 <= limit ==> |MatchedRanking(candidates, limit)| == if limit <= |Positive(candidates)| then limit else |Positive(candidates)|
  {
    Sorting.SortDescPermutes(Positive(candidates), ScoreKey);
  }

  /** The ranking keeps only candidates with a positive score, highest score first. */
  lemma MatchedRankingSorted(candidates: seq<ScoredJob>, limit: int)
    ensures var r := MatchedRanking(candidates, limit);
      && (forall i :: 0 <= i < |r| ==> r[i].score > 0.0 && r[i] in candidates)
      && (forall i, j :: 0 <= i < j < |r| ==> r[i].score >= r[j].score)
  {
    var p := Positive(candidates);
    var s := Sorting.SortDesc(p, ScoreKey);
    var r := MatchedRanking(candidates, limit);
    PositiveIsFilter(candidates);
    Sorting.SortDescPermutes(p, ScoreKey);
    MatchedRankingIsPrefix(candidates, limit);
    forall i | 0 <= i < |r| ensures r[i].score > 0.0 && r[i] in candidates {
      assert r[i] == s[i];
      assert s[i] in multiset(p);
      assert s[i] in multiset(candidates);
    }
    forall i, j | 0 <= i < j < |r| ensures r[i].score >= r[j].score {
      assert r[i] == s[i] && r[j] == s[j];
    }
  }

  /** Nothing the limit cuts off outranks anything the ranking keeps. */
  lemma MatchedRankingKeepsTheBest(candidates: seq<ScoredJob>, limit: int, c: ScoredJob)
    requires c in candidates && c.score > 0.0 && c !in MatchedRanking(candidates, limit)
    ensures forall k :: 0 <= k < |MatchedRanking(candidates, limit)| ==> MatchedRanking(candidates, limit)[k].score >= c.score
  {
    var p := Positive(candidates);
    var s := Sorting.SortDesc(p, ScoreKey);
    var r := MatchedRanking(candidates, limit);
    PositiveIsFilter(candidates);
    Sorting.SortDescPermutes(p, ScoreKey);
    MatchedRankingIsPrefix(candidates, limit);
    assert c in multiset(s);
    var m :| 0 <= m < |s| && s[m] == c;
    assert m >= |r|;
    forall k | 0 <= k < |r| ensures r[k].score >= c.score {
      assert r[k] == s[k];
    }
  }

  /** Jobs of equal score keep the order the candidates came in. */
  lemma MatchedRankingStable(candidates: seq<ScoredJob>, v: real)
    ensures Sorting.WithKey(Sorting.SortDesc(Positive(candidates), ScoreKey), v, ScoreKey)
         == Sorting.WithKey(Positive(candidates), v, ScoreKey)
  {
    Sorting.SortDescStable(Positive(candidates), v, ScoreKey);
  }

  /** Scores every candidate has been given; keeps the positive ones, sorts them in place and truncates. */
  method MatchedJobs(candidates: seq<ScoredJob>, limit: int) returns (result: seq<ScoredJob>)
    ensures result == MatchedRanking(candidates, limit)
  {
    var scored: seq<ScoredJob> := [];
    for i := 0 to |candidates|
      invariant scored == Positive(candidates[..i])
    {
      assert candidates[..i + 1][..i] == candidates[..i];
      if candidates[i].score > 0.0 {
        scored := scored + [candidates[i]];
      }
    }
    assert candidates[..|candidates|] == candidates;
    var a := new ScoredJob[|scored|](k requires 0 <= k < |scored| => scored[k]);
    assert a[..] == scored;
    Sorting.InsertionSortDesc(a, ScoreKey);
    result := PyPrefix(a[..], limit);
  }

  // ---------------------------------------------------------------------------
  // Creating and updating jobs

  /** The job a validated create request makes, with the default shift times. */
  function NewJob(data: JobCreateData, poster: UserId, now: int): (job: Job)
    ensures job.shiftStart == if data.shiftStart.Some? then data.shiftStart.value else now + DEFAULT_START_DELAY
    ensures job.shiftEnd == if data.shiftEnd.Some? then data.shiftEnd.value else job.shiftStart + DEFAULT_SHIFT_LENGTH
    ensures job.poster == poster && job.isActive && job.status == OPEN
    ensures job.accessibilityRequirements == FlagsToRequirements(data.accessibilityFlags)
  {
    var start := if data.shiftStart.Some? then data.shiftStart.value else now + DEFAULT_START_DELAY;
    Job(data.title, data.description, data.shortDescription, poster, data.skillTags,
        FlagsToRequirements(data.accessibilityFlags), data.latitude, data.longitude,
        start, if data.shiftEnd.Some? then data.shiftEnd.value else start + DEFAULT_SHIFT_LENGTH,
        OPEN, true)
  }

  /**
   * A shift is well ordered unless only its end was given: the check that
   * an end follows its start runs only when both are given, and a lone
   * end is kept even when it falls before the default start.
   */
  lemma NewJobShiftOrder(data: JobCreateData, poster: UserId, now: int)
    requires data.shiftStart.Some? && data.shiftEnd.Some? ==> data.shiftStart.value < data.shiftEnd.value
    ensures data.shiftEnd.None? || data.shiftStart.Some? ==> NewJob(data, poster, now).shiftStart < NewJob(data, poster, now).shiftEnd
    ensures data.shiftStart.None? && data.shiftEnd.Some? && data.shiftEnd.value <= now + DEFAULT_START_DELAY ==>
      NewJob(data, poster, now).shiftEnd <= NewJob(data, poster, now).shiftStart
  {
  }

  /** The fields an update may set, in the order they are applied. */
  const ALLOWED_FIELDS: seq<string> :=
    ["title", "description", "short_description", "skill_tags", "latitude", "longitude", "shift_start", "shift_end", "status"]

  /** One value of an update request. */
  datatype FieldValue =
    | VText(text: string)
    | VTags(tags: seq<string>)
    | VNumber(number: real)
    | VTime(time: int)
    | VFlags(flags: Json)

  /** The value a job holds in an updatable field. */
  function Get(job: Job, field: string): Option<FieldValue> {
    if field == "title" then Some(VText(job.title))
    else if field == "description" then Some(VText(job.description))
    else if field == "short_description" then Some(VText(job.shortDescription))
    else if field == "skill_tags" then Some(VTags(job.skillTags))
    else if field == "latitude" then Some(VNumber(job.latitude))
    else if field == "longitude" then Some(VNumber(job.longitude))
    else if field == "shift_start" then Some(VTime(job.shiftStart))
    else if field == "shift_end" then Some(VTime(job.shiftEnd))
    else if field == "status" then Some(VText(job.status))
    else None
  }

  /** A value of the field's type. */
  predicate Fits(field: string, v: FieldValue) {
    match v
    case VText(_) => field == "title" || field == "description" || field == "short_description" || field == "status"
    case VTags(_) => field == "skill_tags"
    case VNumber(_) => field == "latitude" || field == "longitude"
    case VTime(_) => field == "shift_start" || field == "shift_end"
    case VFlags(_) => false
  }

  /** Sets one attribute of the job. */
  function SetField(job: Job, field: string, v: FieldValue): Job {
    match v
    case VText(s) =>
      if field == "title" then job.(title := s)
      else if field == "description" then job.(description := s)
      else if field == "short_description" then job.(shortDescription := s)
      else if field == "status" then job.(status := s)
      else job
    case VTags(t) => if field == "skill_tags" then job.(skillTags := t) else job
    case VNumber(x) =>
      if field == "latitude" then job.(latitude := x)
      else if field == "longitude" then job.(longitude := x)
      else job
    case VTime(t) =>
      if field == "shift_start" then job.(shiftStart := t)
      else if field == "shift_end" then job.(shiftEnd := t)
      else job
    case VFlags(_) => job
  }

  lemma SetFieldEffect(job: Job, f: string, v: FieldValue)
    ensures forall g :: g in ALLOWED_FIELDS ==>
      Get(SetField(job, f, v), g) == if g == f && Fits(f, v) then Some(v) else Get(job, g)
    ensures SetField(job, f, v).poster == job.poster && SetField(job, f, v).isActive == job.isActive
    ensures SetField(job, f, v).accessibilityRequirements == job.accessibilityRequirements
  {
  }

  /** The whitelisted fields among `fields` that the request names, applied in order. */
  function ApplyFields(job: Job, request: map<string, FieldValue>, fields: seq<string>): Job {
    if fields == [] then job
    else
      var before := ApplyFields(job, request, fields[..|fields| - 1]);
      var f := fields[|fields| - 1];
      if f in request then SetField(before, f, request[f]) else before
  }

  /** Each whitelisted field ends with the request's value when the request names it, else keeps the job's. */
  lemma {:induction false} ApplyFieldsEffect(job: Job, request: map<string, FieldValue>, fields: seq<string>)
    ensures forall g :: g in ALLOWED_FIELDS ==>
      Get(ApplyFields(job, request, fields), g)
        == if g in fields && g in request && Fits(g, request[g]) then Some(request[g]) else Get(job, g)
    ensures ApplyFields(job, request, fields).poster == job.poster
    ensures ApplyFields(job, request, fields).isActive == job.isActive
    ensures ApplyFields(job, request, fields).accessibilityRequirements == job.accessibilityRequirements
  {
    if fields != [] {
      var init := fields[..|fields| - 1];
      var f := fields[|fields| - 1];
      ApplyFieldsEffect(job, request, init);
      if f in request {
        SetFieldEffect(ApplyFields(job, request, init), f, request[f]);
      }
      assert fields == init + [f];
    }
  }

  /** The job after an authorised update. */
  function UpdatedJob(job: Job, request: map<string, FieldValue>): Job {
    var applied := ApplyFields(job, request, ALLOWED_FIELDS);
    if "accessibility_flags" in request then
      applied.(accessibilityRequirements :=
        if request["accessibility_flags"].VFlags? then FlagsToRequirements(request["accessibility_flags"].flags) else [])
    else applied
  }

  /**
   * An update sets exactly the whitelisted fields the request names, and
   * the requirement list only when the request carries flags; the poster
   * and the active flag never change.
   */
  lemma UpdateChangesOnlyWhitelisted(job: Job, request: map<string, FieldValue>)
    ensures forall g :: g in ALLOWED_FIELDS ==>
      Get(UpdatedJob(job, request), g) == if g in request && Fits(g, request[g]) then Some(request[g]) else Get(job, g)
    ensures UpdatedJob(job, request).poster == job.poster && UpdatedJob(job, request).isActive == job.isActive
    ensures "accessibility_flags" !in request ==>
      UpdatedJob(job, request).accessibilityRequirements == job.accessibilityRequirements
    ensures "accessibility_flags" in request && request["accessibility_flags"].VFlags? ==>
      UpdatedJob(job, request).accessibilityRequirements == FlagsToRequirements(request["accessibility_flags"].flags)
  {
    ApplyFieldsEffect(job, request, ALLOWED_FIELDS);
  }

  function SwipeMessage(interested: bool, title: string): string {
    "You " + (if interested then "interested in" else "passed on") + " \"" + title + "\""
  }

  // ---------------------------------------------------------------------------
  // The tables

  /** The ids of a poster's jobs that were not deleted. */
  function PostedBy(jobs: map<JobId, Job>, poster: UserId): set<JobId> {
    set id | id in jobs && jobs[id].poster == poster && jobs[id].isActive
  }

  /** Storing a new active job adds its id to its poster's jobs. */
  lemma PostedByInsert(jobs: map<JobId, Job>, newId: JobId, job: Job)
    requires newId !in jobs && job.isActive
    ensures PostedBy(jobs[newId := job], job.poster) == PostedBy(jobs, job.poster) + {newId}
  {
  }

  /** Deleting one of a poster's jobs removes its id from the poster's jobs. */
  lemma PostedByDelete(jobs: map<JobId, Job>, id: JobId)
    requires id in jobs
    ensures PostedBy(jobs[id := jobs[id].(isActive := false)], jobs[id].poster) == PostedBy(jobs, jobs[id].poster) - {id}
  {
  }

  class JobBoard {
    var jobs: map<JobId, Job>
    var users: set<UserId>
    var interests: map<(UserId, JobId), bool>
    var acceptances: map<(UserId, JobId), string>
    /** Conversations by (job, volunteer), holding the poster. */
    var conversations: map<(JobId, UserId), UserId>

    constructor (registered: set<UserId>)
      ensures jobs == map[] && users == registered && interests == map[] && acceptances == map[] && conversations == map[]
    {
      jobs := map[];
      users := registered;
      interests := map[];
      acceptances := map[];
      conversations := map[];
    }

    /** Look-ups by id see only jobs that were not deleted. */
    predicate IsActiveJob(id: JobId)
      reads this
    {
      id in jobs && jobs[id].isActive
    }

    /** Swipes see only active jobs that are still open. */
    predicate IsOpenJob(id: JobId)
      reads this
    {
      IsActiveJob(id) && jobs[id].status == OPEN
    }

    /** The ids of the caller's jobs that were not deleted. */
    function MyPostedJobs(caller: UserId): set<JobId>
      reads this
    {
      PostedBy(jobs, caller)
    }

    /**
     * A swipe on an open job records the flag, replacing an earlier one;
     * a right swipe adds a pending acceptance unless one exists already.
     */
    method SwipeInterest(user: UserId, jobId: JobId, interested: bool) returns (reply: Reply, created: bool)
      modifies this
      ensures !old(IsOpenJob(jobId)) ==>
        reply == JOB_NOT_FOUND && !created && interests == old(interests) && acceptances == old(acceptances)
      ensures old(IsOpenJob(jobId)) ==>
        && reply == Done(200, SwipeMessage(interested, old(jobs)[jobId].title))
        && created == ((user, jobId) !in old(interests))
        && interests == old(interests)[(user, jobId) := interested]
        && acceptances == if interested && (user, jobId) !in old(acceptances)
                          then old(acceptances)[(user, jobId) := PENDING] else old(acceptances)
      ensures jobs == old(jobs) && users == old(users) && conversations == old(conversations)
    {
      if !IsOpenJob(jobId) {
        return JOB_NOT_FOUND, false;
      }
      created := (user, jobId) !in interests;
      interests := interests[(user, jobId) := interested];
      if interested && (user, jobId) !in acceptances {
        acceptances := acceptances[(user, jobId) := PENDING];
      }
      reply := Done(200, SwipeMessage(interested, jobs[jobId].title));
    }

    /** Creates a job under the id the database assigns, when the request validates. */
    method CreateJob(caller: UserId, request: JobCreateRequest, now: int, newId: JobId) returns (reply: Reply)
      requires newId !in jobs
      modifies this
      ensures ValidateJobCreate(request).Failure? ==>
        reply == Invalid(ValidateJobCreate(request).error) && jobs == old(jobs)
      ensures ValidateJobCreate(request).Success? ==>
        && reply == Done(201, "")
        && jobs == old(jobs)[newId := NewJob(ValidateJobCreate(request).value, caller, now)]
        && MyPostedJobs(caller) == old(MyPostedJobs(caller)) + {newId}
      ensures users == old(users) && interests == old(interests)
      ensures acceptances == old(acceptances) && conversations == old(conversations)
    {
      var validated := ValidateJobCreate(request);
      if validated.Failure? {
        return Invalid(validated.error);
      }
      reply := StoreJob(caller, validated.value, now, newId);
    }

    /** Stores the job a validated request makes under the new id. */
    method StoreJob(caller: UserId, data: JobCreateData, now: int, newId: JobId) returns (reply: Reply)
      requires newId !in jobs
      modifies this
      ensures reply == Done(201, "")
      ensures jobs == old(jobs)[newId := NewJob(data, caller, now)]
      ensures MyPostedJobs(caller) == old(MyPostedJobs(caller)) + {newId}
      ensures users == old(users) && interests == old(interests)
      ensures acceptances == old(acceptances) && conversations == old(conversations)
    {
      PostedByInsert(jobs, newId, NewJob(data, caller, now));
      jobs := jobs[newId := NewJob(data, caller, now)];
      reply := Done(201, "");
    }

    /** The poster's update of an active job's whitelisted fields, applied one field at a time. */
    method UpdateJob(caller: UserId, jobId: JobId, request: map<string, FieldValue>) returns (reply: Reply)
      modifies this
      ensures !old(IsActiveJob(jobId)) ==> reply == JOB_NOT_FOUND && jobs == old(jobs)
      ensures old(IsActiveJob(jobId)) && old(jobs)[jobId].poster != caller ==>
        reply == Denied(403, "Only the poster can update this job.") && jobs == old(jobs)
      ensures old(IsActiveJob(jobId)) && old(jobs)[jobId].poster == caller ==>
        reply == Done(200, "") && jobs == old(jobs)[jobId := UpdatedJob(old(jobs)[jobId], request)]
      ensures users == old(users) && interests == old(interests)
      ensures acceptances == old(acceptances) && conversations == old(conversations)
    {
      if !IsActiveJob(jobId) {
        return JOB_NOT_FOUND;
      }
      if jobs[jobId].poster != caller {
        return Denied(403, "Only the poster can update this job.");
      }
      var job := jobs[jobId];
      for i := 0 to |ALLOWED_FIELDS|
        invariant job == ApplyFields(jobs[jobId], request, ALLOWED_FIELDS[..i])
      {
        assert ALLOWED_FIELDS[..i + 1][..i] == ALLOWED_FIELDS[..i];
        var field := ALLOWED_FIELDS[i];
        if field in request {
          job := SetField(job, field, request[field]);
        }
      }
      assert ALLOWED_FIELDS[..|ALLOWED_FIELDS|] == ALLOWED_FIELDS;
      if "accessibility_flags" in request {
        var flags := request["accessibility_flags"];
        job := job.(accessibilityRequirements := if flags.VFlags? then FlagsToRequirements(flags.flags) else []);
      }
      jobs := jobs[jobId := job];
      reply := Done(200, "");
    }

    /** Soft delete: the poster's job stays in the table, inactive. */
    method DeleteJob(caller: UserId, jobId: JobId) returns (reply: Reply)
      modifies this
      ensures !old(IsActiveJob(jobId)) ==> reply == JOB_NOT_FOUND && jobs == old(jobs)
      ensures old(IsActiveJob(jobId)) && old(jobs)[jobId].poster != caller ==>
        reply == Denied(403, "Only the poster can delete this job.") && jobs == old(jobs)
      ensures old(IsActiveJob(jobId)) && old(jobs)[jobId].poster == caller ==>
        && reply == Done(200, "Job deleted.")
        && jobs == old(jobs)[jobId := old(jobs)[jobId].(isActive := false)]
        && jobId in jobs && !IsActiveJob(jobId)
        && MyPostedJobs(caller) == old(MyPostedJobs(caller)) - {jobId}
      ensures users == old(users) && interests == old(interests)
      ensures acceptances == old(acceptances) && conversations == old(conversations)
    {
      if !IsActiveJob(jobId) {
        return JOB_NOT_FOUND;
      }
      if jobs[jobId].poster != caller {
        return Denied(403, "Only the poster can delete this job.");
      }
      PostedByDelete(jobs, jobId);
      jobs := jobs[jobId := jobs[jobId].(isActive := false)];
      reply := Done(200, "Job deleted.");
    }

    /**
     * The poster confirms a volunteer: the volunteer must exist and have a
     * pending or accepted acceptance, which becomes confirmed; a
     * conversation for the job and volunteer is opened unless one exists.
     */
    method ConfirmVolunteer(caller: UserId, jobId: JobId, volunteer: UserId) returns (reply: Reply)
      modifies this
      ensures !old(IsActiveJob(jobId)) ==> reply == JOB_NOT_FOUND
      ensures old(IsActiveJob(jobId)) && old(jobs)[jobId].poster != caller ==>
        reply == Denied(403, "Only the poster can confirm volunteers.")
      ensures old(IsActiveJob(jobId)) && old(jobs)[jobId].poster == caller && volunteer !in users ==>
        reply == USER_NOT_FOUND
      ensures old(IsActiveJob(jobId)) && old(jobs)[jobId].poster == caller && volunteer in users
              && (volunteer, jobId) !in old(acceptances) ==>
        reply == NO_INTEREST
      ensures old(IsActiveJob(jobId)) && old(jobs)[jobId].poster == caller && volunteer in users
              && (volunteer, jobId) in old(acceptances)
              && old(acceptances)[(volunteer, jobId)] != PENDING && old(acceptances)[(volunteer, jobId)] != ACCEPTED ==>
        reply == Denied(400, "Cannot confirm volunteer with status: " + old(acceptances)[(volunteer, jobId)])
      ensures reply.Done? <==>
        old(IsActiveJob(jobId)) && old(jobs)[jobId].poster == caller && volunteer in users
        && (volunteer, jobId) in old(acceptances)
        && old(acceptances)[(volunteer, jobId)] in {PENDING, ACCEPTED}
      ensures reply.Done? ==>
        && reply == Done(200, CONFIRMED)
        && acceptances == old(acceptances)[(volunteer, jobId) := CONFIRMED]
        && conversations == if (jobId, volunteer) in old(conversations) then old(conversations)
                            else old(conversations)[(jobId, volunteer) := caller]
      ensures !reply.Done? ==> acceptances == old(acceptances) && conversations == old(conversations)
      ensures jobs == old(jobs) && users == old(users) && interests == old(interests)
    {
      if !IsActiveJob(jobId) {
        return JOB_NOT_FOUND;
      }
      if jobs[jobId].poster != caller {
        return Denied(403, "Only the poster can confirm volunteers.");
      }
      if volunteer !in users {
        return USER_NOT_FOUND;
      }
      if (volunteer, jobId) !in acceptances {
        return NO_INTEREST;
      }
      var current := acceptances[(volunteer, jobId)];
      if current != PENDING && current != ACCEPTED {
        return Denied(400, "Cannot confirm volunteer with status: " + current);
      }
      acceptances := acceptances[(volunteer, jobId) := CONFIRMED];
      if (jobId, volunteer) !in conversations {
        conversations := conversations[(jobId, volunteer) := caller];
      }
      reply := Done(200, CONFIRMED);
    }

    /** The users who swiped right on the poster's active job. */
    method JobInterestedUsers(caller: UserId, jobId: JobId) returns (reply: Reply, interested: set<UserId>)
      ensures !IsActiveJob(jobId) ==> reply == JOB_NOT_FOUND && interested == {}
      ensures IsActiveJob(jobId) && jobs[jobId].poster != caller ==>
        reply == Denied(403, "Only the poster can view interested users.") && interested == {}
      ensures IsActiveJob(jobId) && jobs[jobId].poster == caller ==>
        reply == Done(200, "")
        && forall u :: u in interested <==> (u, jobId) in interests && interests[(u, jobId)]
    {
      if !IsActiveJob(jobId) {
        return JOB_NOT_FOUND, {};
      }
      if jobs[jobId].poster != caller {
        return Denied(403, "Only the poster can view interested users."), {};
      }
      interested := set k | k in interests && k.1 == jobId && interests[k] :: k.0;
      reply := Done(200, "");
    }

    /** Confirming the same volunteer twice: the second attempt finds the status confirmed and is refused. */
    method ConfirmTwice(caller: UserId, jobId: JobId, volunteer: UserId) returns (first: Reply, second: Reply)
      modifies this
      ensures first.Done? ==> second == Denied(400, "Cannot confirm volunteer with status: " + CONFIRMED)
      ensures first.Done? ==> (volunteer, jobId) in acceptances && acceptances[(volunteer, jobId)] == CONFIRMED
    {
      first := ConfirmVolunteer(caller, jobId, volunteer);
      second := ConfirmVolunteer(caller, jobId, volunteer);
    }

    /** After a delete, every look-up of that job by id answers that it was not found. */
    method DeleteThenUpdate(caller: UserId, jobId: JobId, request: map<string, FieldValue>)
      returns (deleted: Reply, updated: Reply, again: Reply)
      modifies this
      ensures deleted.Done? ==> updated == JOB_NOT_FOUND && again == JOB_NOT_FOUND
      ensures deleted.Done? ==> jobId in jobs && !jobs[jobId].isActive
    {
      deleted := DeleteJob(caller, jobId);
      updated := UpdateJob(caller, jobId, request);
      again := DeleteJob(caller, jobId);
    }
  }
}
