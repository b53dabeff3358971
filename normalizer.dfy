/** The classification half of `process_webhook_event`: it recognises a push,
    an opened pull request or a merged pull request in a webhook payload and
    builds the record the receiver shows, or yields no record. */
module Normalizer {
  import opened PyValues
  import opened Timestamp

  /** The type-specific part of a record: `branch` for a push,
      `from_branch` and `to_branch` for the two pull-request kinds. */
  datatype Kind =
    | Push(branch: string)
    | PullRequest(fromBranch: Json, toBranch: Json)
    | Merge(fromBranch: Json, toBranch: Json)

  /** The record's `type` field. */
  function TypeName(k: Kind): (name: string)
    ensures name in {"push", "pull_request", "merge"}
  {
    match k
    case Push(_) => "push"
    case PullRequest(_, _) => "pull_request"
    case Merge(_, _) => "merge"
  }

  /** One normalized record, as the dict `event_data`. Values read from the
      payload keep whatever JSON type they had there. */
  datatype Event = Event(
    id: nat, kind: Kind, message: string, author: Json,
    timestamp: Json, repository: Json, rawTimestamp: Json)

  /** What the receiver takes from its surroundings: the current UTC time
      (`datetime.utcnow()`) and the C library's `strftime`. */
  datatype Env = Env(now: DateTime, libc: Libc)

  /** `datetime.utcnow().isoformat() + 'Z'`. */
  function DefaultTimestamp(env: Env): Json {
    JStr(IsoFormatNaive(env.now) + "Z")
  }

  const HeadsPrefix: string := "refs/heads/"

  /** The branch of a push `ref`: with the `refs/heads/` prefix, every
      occurrence of that text is removed; otherwise the ref is kept. */
  function BranchName(ref: string): (r: string)
    ensures !StartsWith(ref, HeadsPrefix) ==> r == ref
  {
    if StartsWith(ref, HeadsPrefix) then ReplaceAll(ref, HeadsPrefix, "") else ref
  }

  /** `ref.startswith(...)` on anything but a `str` raises. */
  function Branch(ref: Json): (r: Py<string>)
    ensures r.Raised? <==> !ref.JStr?
  {
    if ref.JStr? then Value(BranchName(ref.s)) else Raised
  }

  function FormatFor(raw: Json, env: Env): Json {
    FormatValue(raw, env.libc)
  }

  /** The whole of `process_webhook_event` up to the storage step, with the
      id `len(events_storage) + 1` given as `id`. A read that can raise is
      bound with `:-`; a later read of a dict already read cannot raise and
      takes the value directly. */
  function Classify(payload: Json, id: nat, env: Env): Py<Option<Event>> {
    var eventType :- Get(payload, "action", JStr("unknown"));
    var repository := Get(payload, "repository", JObject([])).v;
    var repoName :- Get(repository, "name", JStr("unknown"));
    if HasKey(payload, "commits") && Truthy(Get(payload, "ref", JNull).v) then
      PushEvent(payload, id, env, repoName)
    else if eventType == JStr("opened") && HasKey(payload, "pull_request") then
      PullRequestEvent(payload, id, env, repoName)
    else if eventType == JStr("closed") && HasKey(payload, "pull_request") then
      MergeEvent(payload, id, env, repoName)
    else
      Value(None)
  }

  function PushEvent(payload: Json, id: nat, env: Env, repoName: Json): Py<Option<Event>> {
    var pusher :- Get(payload, "pusher", JObject([]));
    var author :- Get(pusher, "name", JStr("Unknown"));
    var ref := Get(payload, "ref", JStr("")).v;
    var branch :- Branch(ref);
    var headCommit := Get(payload, "head_commit", JObject([])).v;
    var timestamp :- Get(headCommit, "timestamp", DefaultTimestamp(env));
    var formatted := FormatFor(timestamp, env);
    var message := "\"" + PyStr(author) + "\" pushed to \"" + branch + "\" on " + PyStr(formatted);
    Value(Some(Event(id, Push(branch), message, author, formatted, repoName, timestamp)))
  }

  function PullRequestEvent(payload: Json, id: nat, env: Env, repoName: Json): Py<Option<Event>> {
    var pullRequest :- Get(payload, "pull_request", JObject([]));
    var user :- Get(pullRequest, "user", JObject([]));
    var author :- Get(user, "login", JStr("Unknown"));
    var head := Get(pullRequest, "head", JObject([])).v;
    var fromBranch :- Get(head, "ref", JStr("unknown"));
    var base := Get(pullRequest, "base", JObject([])).v;
    var toBranch :- Get(base, "ref", JStr("unknown"));
    var timestamp := Get(pullRequest, "created_at", DefaultTimestamp(env)).v;
    var formatted := FormatFor(timestamp, env);
    var message := "\"" + PyStr(author) + "\" submitted a pull request from \"" + PyStr(fromBranch)
      + "\" to \"" + PyStr(toBranch) + "\" on " + PyStr(formatted);
    Value(Some(Event(id, PullRequest(fromBranch, toBranch), message, author, formatted, repoName,
                     timestamp)))
  }

  function MergeEvent(payload: Json, id: nat, env: Env, repoName: Json): Py<Option<Event>> {
    var pullRequest :- Get(payload, "pull_request", JObject([]));
    var merged :- Get(pullRequest, "merged", JBool(false));
    if !Truthy(merged) then Value(None)
    else
      var mergedBy := Get(pullRequest, "merged_by", JObject([])).v;
      var author :- Get(mergedBy, "login", JStr("Unknown"));
      var head := Get(pullRequest, "head", JObject([])).v;
      var fromBranch :- Get(head, "ref", JStr("unknown"));
      var base := Get(pullRequest, "base", JObject([])).v;
      var toBranch :- Get(base, "ref", JStr("unknown"));
      var timestamp := Get(pullRequest, "merged_at", DefaultTimestamp(env)).v;
      var formatted := FormatFor(timestamp, env);
      var message := "\"" + PyStr(author) + "\" merged branch \"" + PyStr(fromBranch)
        + "\" to \"" + PyStr(toBranch) + "\" on " + PyStr(formatted);
      Value(Some(Event(id, Merge(fromBranch, toBranch), message, author, formatted, repoName,
                       timestamp)))
  }

  /** `process_webhook_event` without storage: any exception raised while
      reading the payload is caught and yields no record. */
  function Normalize(payload: Json, id: nat, env: Env): Option<Event> {
    match Classify(payload, id, env)
    case Value(r) => r
    case Raised => None
  }

  // ---------------------------------------------------------------------
  // The shapes the normalizer recognises, stated on the payload

  /** The value at a path of keys, or `default` once a key is missing. */
  function Dig(j: Json, path: seq<string>, default: Json): Json
    decreases |path|
  {
    if path == [] then j
    else if HasKey(j, path[0]) then Dig(Lookup(j.members, path[0]).value, path[1..], default)
    else default
  }

  /** `d.get(key, {})` is a dict. */
  predicate DictOrMissing(d: Json, key: string) {
    d.JObject? && (!HasKey(d, key) || Lookup(d.members, key).value.JObject?)
  }

  /** `d.get(key, {})` when that does not raise. */
  function Sub(d: Json, key: string): Json {
    Dig(d, [key], JObject([]))
  }

  predicate IsPushShape(p: Json) {
    HasKey(p, "commits") && Truthy(Dig(p, ["ref"], JNull))
  }

  predicate IsOpenedShape(p: Json) {
    Dig(p, ["action"], JStr("unknown")) == JStr("opened") && HasKey(p, "pull_request")
  }

  predicate IsClosedShape(p: Json) {
    Dig(p, ["action"], JStr("unknown")) == JStr("closed") && HasKey(p, "pull_request")
  }

  /** Every container a push reads is a dict and `ref` is a `str`. */
  predicate PushReadable(p: Json) {
    DictOrMissing(p, "pusher") && Dig(p, ["ref"], JNull).JStr? && DictOrMissing(p, "head_commit")
  }

  /** Every container a pull-request record reads is a dict. */
  predicate PullRequestReadable(p: Json, authorKey: string) {
    && DictOrMissing(p, "pull_request")
    && DictOrMissing(Sub(p, "pull_request"), authorKey)
    && DictOrMissing(Sub(p, "pull_request"), "head")
    && DictOrMissing(Sub(p, "pull_request"), "base")
  }

  predicate IsMerged(p: Json) {
    Truthy(Dig(p, ["pull_request", "merged"], JBool(false)))
  }

  /** The payloads that produce a record. */
  predicate Accepted(p: Json) {
    && p.JObject?
    && DictOrMissing(p, "repository")
    && if IsPushShape(p) then PushReadable(p)
       else if IsOpenedShape(p) then PullRequestReadable(p, "user")
       else IsClosedShape(p) && DictOrMissing(p, "pull_request") && IsMerged(p)
            && PullRequestReadable(p, "merged_by")
  }

  /** A record's message is the template of its kind filled with the
      record's own fields, and its timestamp is the formatted raw one. */
  predicate Consistent(e: Event, libc: Libc) {
    && e.timestamp == FormatValue(e.rawTimestamp, libc)
    && e.message == match e.kind
         case Push(b) =>
           "\"" + PyStr(e.author) + "\" pushed to \"" + b + "\" on " + PyStr(e.timestamp)
         case PullRequest(f, t) =>
           "\"" + PyStr(e.author) + "\" submitted a pull request from \"" + PyStr(f)
           + "\" to \"" + PyStr(t) + "\" on " + PyStr(e.timestamp)
         case Merge(f, t) =>
           "\"" + PyStr(e.author) + "\" merged branch \"" + PyStr(f)
           + "\" to \"" + PyStr(t) + "\" on " + PyStr(e.timestamp)
  }

  /** Following one key whose value is known. */
  lemma DigStep(j: Json, k: string, rest: seq<string>, default: Json, v: Json)
    requires j.JObject? && Lookup(j.members, k) == Some(v)
    ensures Dig(j, [k] + rest, default) == Dig(v, rest, default)
  {
    assert ([k] + rest)[1..] == rest;
  }

  /** A one-key path is `d.get(key, default)` on a dict. */
  lemma DigKey(j: Json, k: string, default: Json)
    ensures Dig(j, [k], default) == if HasKey(j, k) then Lookup(j.members, k).value else default
  {
    assert [k][1..] == [];
  }

  lemma DigOne(d: Json, key: string, default: Json)
    requires d.JObject?
    ensures Get(d, key, default) == Value(Dig(d, [key], default))
  {
  }

  lemma DigTwo(d: Json, k1: string, k2: string, default: Json)
    requires DictOrMissing(d, k1)
    ensures Get(Sub(d, k1), k2, default) == Value(Dig(d, [k1, k2], default))
  {
    assert [k1, k2][1..] == [k2];
    assert [k1][1..] == [];
    if HasKey(d, k1) {
      var v := Lookup(d.members, k1).value;
      assert Sub(d, k1) == Dig(v, [], JObject([])) == v;
      assert Dig(d, [k1, k2], default) == Dig(v, [k2], default);
      DigOne(v, k2, default);
    } else {
      assert Sub(d, k1) == JObject([]);
      assert Lookup([], k2) == None;
    }
  }

  lemma DigThree(d: Json, k1: string, k2: string, k3: string, default: Json)
    requires DictOrMissing(d, k1) && DictOrMissing(Sub(d, k1), k2)
    ensures Get(Sub(Sub(d, k1), k2), k3, default) == Value(Dig(d, [k1, k2, k3], default))
  {
    assert [k1, k2, k3][1..] == [k2, k3];
    assert [k1][1..] == [];
    if HasKey(d, k1) {
      var v := Lookup(d.members, k1).value;
      assert Sub(d, k1) == Dig(v, [], JObject([])) == v;
      assert Dig(d, [k1, k2, k3], default) == Dig(v, [k2, k3], default);
      DigTwo(v, k2, k3, default);
    } else {
      assert Sub(d, k1) == JObject([]);
      assert Lookup([], k2) == None;
      assert Sub(Sub(d, k1), k2) == JObject([]);
      assert Lookup([], k3) == None;
    }
  }

  /** The push record the payload `p` describes. */
  predicate IsPushRecord(e: Event, p: Json, id: nat, env: Env) {
    && e.id == id
    && Dig(p, ["ref"], JNull).JStr?
    && e.kind == Push(BranchName(Dig(p, ["ref"], JNull).s))
    && e.author == Dig(p, ["pusher", "name"], JStr("Unknown"))
    && e.rawTimestamp == Dig(p, ["head_commit", "timestamp"], DefaultTimestamp(env))
    && e.repository == Dig(p, ["repository", "name"], JStr("unknown"))
    && Consistent(e, env.libc)
  }

  /** The opened-pull-request record the payload `p` describes. */
  predicate IsPullRequestRecord(e: Event, p: Json, id: nat, env: Env) {
    && e.id == id
    && e.kind == PullRequest(Dig(p, ["pull_request", "head", "ref"], JStr("unknown")),
                             Dig(p, ["pull_request", "base", "ref"], JStr("unknown")))
    && e.author == Dig(p, ["pull_request", "user", "login"], JStr("Unknown"))
    && e.rawTimestamp == Dig(p, ["pull_request", "created_at"], DefaultTimestamp(env))
    && e.repository == Dig(p, ["repository", "name"], JStr("unknown"))
    && Consistent(e, env.libc)
  }

  /** The merge record the payload `p` describes. */
  predicate IsMergeRecord(e: Event, p: Json, id: nat, env: Env) {
    && e.id == id
    && e.kind == Merge(Dig(p, ["pull_request", "head", "ref"], JStr("unknown")),
                       Dig(p, ["pull_request", "base", "ref"], JStr("unknown")))
    && e.author == Dig(p, ["pull_request", "merged_by", "login"], JStr("Unknown"))
    && e.rawTimestamp == Dig(p, ["pull_request", "merged_at"], DefaultTimestamp(env))
    && e.repository == Dig(p, ["repository", "name"], JStr("unknown"))
    && Consistent(e, env.libc)
  }

  lemma {:induction false} PushEventSpec(p: Json, id: nat, env: Env, repoName: Json)
    requires p.JObject? && IsPushShape(p)
    requires repoName == Dig(p, ["repository", "name"], JStr("unknown"))
    ensures PushEvent(p, id, env, repoName) != Value(None)
    ensures PushEvent(p, id, env, repoName).Value? <==> PushReadable(p)
    ensures PushReadable(p) ==> IsPushRecord(PushEvent(p, id, env, repoName).v.value, p, id, env)
  {
    DigOne(p, "pusher", JObject([]));
    DigOne(p, "ref", JStr(""));
    DigOne(p, "ref", JNull);
    DigOne(p, "head_commit", JObject([]));
    if PushReadable(p) {
      DigTwo(p, "pusher", "name", JStr("Unknown"));
      DigTwo(p, "head_commit", "timestamp", DefaultTimestamp(env));
    }
  }

  lemma {:induction false} PullRequestEventSpec(p: Json, id: nat, env: Env, repoName: Json)
    requires p.JObject? && repoName == Dig(p, ["repository", "name"], JStr("unknown"))
    ensures PullRequestEvent(p, id, env, repoName) != Value(None)
    ensures PullRequestEvent(p, id, env, repoName).Value? <==> PullRequestReadable(p, "user")
    ensures PullRequestReadable(p, "user") ==>
      IsPullRequestRecord(PullRequestEvent(p, id, env, repoName).v.value, p, id, env)
  {
    DigOne(p, "pull_request", JObject([]));
    if DictOrMissing(p, "pull_request") {
      var pr := Sub(p, "pull_request");
      DigOne(pr, "user", JObject([]));
      DigOne(pr, "head", JObject([]));
      DigOne(pr, "base", JObject([]));
      DigTwo(p, "pull_request", "created_at", DefaultTimestamp(env));
      if PullRequestReadable(p, "user") {
        DigThree(p, "pull_request", "user", "login", JStr("Unknown"));
        DigThree(p, "pull_request", "head", "ref", JStr("unknown"));
        DigThree(p, "pull_request", "base", "ref", JStr("unknown"));
      }
    }
  }

  lemma {:induction false} MergeEventSpec(p: Json, id: nat, env: Env, repoName: Json)
    requires p.JObject? && repoName == Dig(p, ["repository", "name"], JStr("unknown"))
    ensures MergeEvent(p, id, env, repoName).Value? && MergeEvent(p, id, env, repoName).v.Some?
      <==> DictOrMissing(p, "pull_request") && IsMerged(p) && PullRequestReadable(p, "merged_by")
    ensures DictOrMissing(p, "pull_request") && IsMerged(p) && PullRequestReadable(p, "merged_by")
      ==> IsMergeRecord(MergeEvent(p, id, env, repoName).v.value, p, id, env)
  {
    DigOne(p, "pull_request", JObject([]));
    if DictOrMissing(p, "pull_request") {
      var pr := Sub(p, "pull_request");
      DigTwo(p, "pull_request", "merged", JBool(false));
      DigOne(pr, "merged_by", JObject([]));
      DigOne(pr, "head", JObject([]));
      DigOne(pr, "base", JObject([]));
      DigTwo(p, "pull_request", "merged_at", DefaultTimestamp(env));
      if PullRequestReadable(p, "merged_by") {
        DigThree(p, "pull_request", "merged_by", "login", JStr("Unknown"));
        DigThree(p, "pull_request", "head", "ref", JStr("unknown"));
        DigThree(p, "pull_request", "base", "ref", JStr("unknown"));
      }
    }
  }

  /** Exactly the accepted payloads produce a record, and the record is the
      one of the first shape that matches, in the order push, opened pull
      request, closed pull request, with its fields read from the payload
      and their defaults where a key is missing. */
  lemma {:induction false} NormalizeSpec(p: Json, id: nat, env: Env)
    ensures Normalize(p, id, env).Some? <==> Accepted(p)
    ensures Accepted(p) ==>
      var e := Normalize(p, id, env).value;
      if IsPushShape(p) then IsPushRecord(e, p, id, env)
      else if IsOpenedShape(p) then IsPullRequestRecord(e, p, id, env)
      else IsMergeRecord(e, p, id, env)
  {
    if p.JObject? {
      DigOne(p, "action", JStr("unknown"));
      DigOne(p, "repository", JObject([]));
      DigOne(p, "ref", JNull);
      if DictOrMissing(p, "repository") {
        var repoName := Dig(p, ["repository", "name"], JStr("unknown"));
        DigTwo(p, "repository", "name", JStr("unknown"));
        if IsPushShape(p) {
          PushEventSpec(p, id, env, repoName);
        } else if IsOpenedShape(p) {
          PullRequestEventSpec(p, id, env, repoName);
        } else if IsClosedShape(p) {
          MergeEventSpec(p, id, env, repoName);
        }
      }
    }
  }

  /** A payload of push shape never yields a pull-request or merge record,
      whatever its `action` and `pull_request` say. */
  lemma PushWins(p: Json, id: nat, env: Env)
    requires IsPushShape(p)
    ensures Normalize(p, id, env).Some? ==> Normalize(p, id, env).value.kind.Push?
  {
    NormalizeSpec(p, id, env);
  }

  /** A closed pull request that was not merged yields no record. */
  lemma ClosedUnmergedIgnored(p: Json, id: nat, env: Env)
    requires !IsPushShape(p) && Dig(p, ["action"], JStr("unknown")) == JStr("closed")
    requires !IsMerged(p)
    ensures Normalize(p, id, env) == None
  {
    NormalizeSpec(p, id, env);
  }

  /** Without push shape, an action other than `opened` and `closed` yields no record. */
  lemma OtherActionIgnored(p: Json, id: nat, env: Env)
    requires !IsPushShape(p)
    requires Dig(p, ["action"], JStr("unknown")) != JStr("opened")
    requires Dig(p, ["action"], JStr("unknown")) != JStr("closed")
    ensures Normalize(p, id, env) == None
  {
    NormalizeSpec(p, id, env);
  }

  /** A ref of the form `refs/heads/<name>` gives `<name>` when the name
      holds no further `refs/heads/`. */
  lemma {:induction false} BranchOfHeadsRef(name: string)
    requires forall i :: 0 <= i <= |name| - |HeadsPrefix| ==> !OccursAt(name, HeadsPrefix, i)
    ensures BranchName(HeadsPrefix + name) == name
  {
    assert StartsWith(HeadsPrefix + name, HeadsPrefix) by {
      assert (HeadsPrefix + name)[..|HeadsPrefix|] == HeadsPrefix;
    }
    ReplaceLeading(HeadsPrefix, name, "");
    ReplaceAbsent(name, HeadsPrefix, "");
  }

  /** Every occurrence of `refs/heads/` goes, not only the prefix. */
  lemma EveryOccurrenceRemoved()
    ensures BranchName("refs/heads/a/refs/heads/b") == "a/b"
  {
    var rest := "a/refs/heads/b";
    assert "refs/heads/a/refs/heads/b" == HeadsPrefix + rest;
    assert StartsWith(HeadsPrefix + rest, HeadsPrefix) by {
      assert (HeadsPrefix + rest)[..|HeadsPrefix|] == HeadsPrefix;
    }
    ReplaceLeading(HeadsPrefix, rest, "");
    assert rest[..|HeadsPrefix|][0] == 'a' != HeadsPrefix[0];
    assert rest[1..][..|HeadsPrefix|][0] == '/' != HeadsPrefix[0];
    assert rest[1..][1..] == HeadsPrefix + "b";
    ReplaceLeading(HeadsPrefix, "b", "");
  }

  // ---------------------------------------------------------------------
  // The canned payloads of the test endpoint, stamped with `now`

  /** The surroundings as `datetime.utcnow()` gives them: a valid naive time. */
  predicate ValidEnv(env: Env) {
    Valid(env.now) && env.now.offsetMinutes.None?
  }

  function Obj1(k: string, v: Json): Json {
    JObject([(k, v)])
  }

  function TestPushPayload(now: string): Json {
    JObject([
      ("ref", JStr("refs/heads/main")),
      ("pusher", Obj1("name", JStr("TestUser"))),
      ("repository", Obj1("name", JStr("test-repo"))),
      ("head_commit", Obj1("timestamp", JStr(now)))])
  }

  function TestPullRequestBody(now: string): Json {
    JObject([
      ("user", Obj1("login", JStr("TestUser"))),
      ("head", Obj1("ref", JStr("feature-branch"))),
      ("base", Obj1("ref", JStr("main"))),
      ("created_at", JStr(now))])
  }

  function TestPullRequestPayload(now: string): Json {
    JObject([
      ("action", JStr("opened")),
      ("pull_request", TestPullRequestBody(now)),
      ("repository", Obj1("name", JStr("test-repo")))])
  }

  function TestMergeBody(now: string): Json {
    JObject([
      ("merged", JBool(true)),
      ("merged_by", Obj1("login", JStr("TestUser"))),
      ("head", Obj1("ref", JStr("feature-branch"))),
      ("base", Obj1("ref", JStr("main"))),
      ("merged_at", JStr(now))])
  }

  function TestMergePayload(now: string): Json {
    JObject([
      ("action", JStr("closed")),
      ("pull_request", TestMergeBody(now)),
      ("repository", Obj1("name", JStr("test-repo")))])
  }

  /** The canned push payload carries no `commits` key, so it is not
      recognised as a push and yields no record. */
  lemma CannedPushIgnored(now: string, id: nat, env: Env)
    ensures Normalize(TestPushPayload(now), id, env) == None
  {
    var p := TestPushPayload(now);
    assert !HasKey(p, "commits");
    DigKey(p, "action", JStr("unknown"));
    OtherActionIgnored(p, id, env);
  }

  /** The opened-pull-request record of a payload whose fields are known. */
  lemma {:induction false} PullRequestOfFields(p: Json, id: nat, env: Env, author: Json,
                                                fromBranch: Json, toBranch: Json, raw: Json,
                                                repo: Json)
    requires Accepted(p) && !IsPushShape(p) && IsOpenedShape(p)
    requires Dig(p, ["pull_request", "user", "login"], JStr("Unknown")) == author
    requires Dig(p, ["pull_request", "head", "ref"], JStr("unknown")) == fromBranch
    requires Dig(p, ["pull_request", "base", "ref"], JStr("unknown")) == toBranch
    requires Dig(p, ["pull_request", "created_at"], DefaultTimestamp(env)) == raw
    requires Dig(p, ["repository", "name"], JStr("unknown")) == repo
    ensures Normalize(p, id, env) == Some(Event(
      id, PullRequest(fromBranch, toBranch),
      "\"" + PyStr(author) + "\" submitted a pull request from \"" + PyStr(fromBranch)
      + "\" to \"" + PyStr(toBranch) + "\" on " + PyStr(FormatValue(raw, env.libc)),
      author, FormatValue(raw, env.libc), repo, raw))
  {
    NormalizeSpec(p, id, env);
    var e := Normalize(p, id, env).value;
    assert e.kind == PullRequest(fromBranch, toBranch) && e.author == author && e.rawTimestamp == raw;
    assert e.timestamp == FormatValue(raw, env.libc) && e.repository == repo && e.id == id;
  }

  /** The merge record of a payload whose fields are known. */
  lemma {:induction false} MergeOfFields(p: Json, id: nat, env: Env, author: Json,
                                          fromBranch: Json, toBranch: Json, raw: Json,
                                          repo: Json)
    requires Accepted(p) && !IsPushShape(p) && !IsOpenedShape(p)
    requires Dig(p, ["pull_request", "merged_by", "login"], JStr("Unknown")) == author
    requires Dig(p, ["pull_request", "head", "ref"], JStr("unknown")) == fromBranch
    requires Dig(p, ["pull_request", "base", "ref"], JStr("unknown")) == toBranch
    requires Dig(p, ["pull_request", "merged_at"], DefaultTimestamp(env)) == raw
    requires Dig(p, ["repository", "name"], JStr("unknown")) == repo
    ensures Normalize(p, id, env) == Some(Event(
      id, Merge(fromBranch, toBranch),
      "\"" + PyStr(author) + "\" merged branch \"" + PyStr(fromBranch)
      + "\" to \"" + PyStr(toBranch) + "\" on " + PyStr(FormatValue(raw, env.libc)),
      author, FormatValue(raw, env.libc), repo, raw))
  {
    NormalizeSpec(p, id, env);
    var e := Normalize(p, id, env).value;
    assert e.kind == Merge(fromBranch, toBranch) && e.author == author && e.rawTimestamp == raw;
    assert e.timestamp == FormatValue(raw, env.libc) && e.repository == repo && e.id == id;
  }

  /** The `repository` and `action` of a canned pull-request payload. */
  lemma {:induction false} CannedTop(p: Json, body: Json, action: string)
    requires p == JObject([("action", JStr(action)), ("pull_request", body),
                           ("repository", Obj1("name", JStr("test-repo")))])
    ensures !IsPushShape(p) && HasKey(p, "pull_request")
    ensures Dig(p, ["action"], JStr("unknown")) == JStr(action)
    ensures DictOrMissing(p, "repository")
    ensures Dig(p, ["repository", "name"], JStr("unknown")) == JStr("test-repo")
  {
    assert !HasKey(p, "commits");
    LookupAt(p.members, 0, "action");
    DigKey(p, "action", JStr("unknown"));
    LookupAt(p.members, 1, "pull_request");
    LookupAt(p.members, 2, "repository");
    assert ["repository", "name"] == ["repository"] + ["name"];
    DigStep(p, "repository", ["name"], JStr("unknown"), Obj1("name", JStr("test-repo")));
    DigKey(Obj1("name", JStr("test-repo")), "name", JStr("unknown"));
  }

  /** Reading `pull_request` and then one key of it in a canned payload. */
  lemma {:induction false} CannedPullRequestKey(p: Json, body: Json, action: string, i: nat,
                                                key: string, v: Json, default: Json)
    requires p == JObject([("action", JStr(action)), ("pull_request", body),
                           ("repository", Obj1("name", JStr("test-repo")))])
    requires body.JObject? && i < |body.members| && body.members[i] == (key, v)
    requires forall j :: 0 <= j < i ==> body.members[j].0 != key
    ensures HasKey(p, "pull_request") && Sub(p, "pull_request") == body
    ensures DictOrMissing(p, "pull_request")
    ensures Lookup(body.members, key) == Some(v)
    ensures Dig(p, ["pull_request", key], default) == v
  {
    LookupAt(p.members, 1, "pull_request");
    DigKey(p, "pull_request", JObject([]));
    LookupAt(body.members, i, key);
    assert ["pull_request", key] == ["pull_request"] + [key];
    DigStep(p, "pull_request", [key], default, body);
    DigKey(body, key, default);
  }

  /** Reading `pull_request`, a key of it holding a one-member dict, and that member. */
  lemma {:induction false} CannedPullRequestPath(p: Json, body: Json, action: string, i: nat,
                                                 key: string, inner: string, v: Json,
                                                 default: Json)
    requires p == JObject([("action", JStr(action)), ("pull_request", body),
                           ("repository", Obj1("name", JStr("test-repo")))])
    requires body.JObject? && i < |body.members| && body.members[i] == (key, Obj1(inner, v))
    requires forall j :: 0 <= j < i ==> body.members[j].0 != key
    ensures HasKey(p, "pull_request") && Sub(p, "pull_request") == body
    ensures DictOrMissing(p, "pull_request")
    ensures DictOrMissing(body, key)
    ensures Dig(p, ["pull_request", key, inner], default) == v
  {
    CannedPullRequestKey(p, body, action, i, key, Obj1(inner, v), default);
    assert ["pull_request", key, inner] == ["pull_request"] + ([key] + [inner]);
    DigStep(p, "pull_request", [key] + [inner], default, body);
    DigStep(body, key, [inner], default, Obj1(inner, v));
    DigKey(Obj1(inner, v), inner, default);
  }

  lemma OpenedRead(now: string, i: nat, key: string, inner: string, v: Json, default: Json)
    requires i < 3 && TestPullRequestBody(now).members[i] == (key, Obj1(inner, v))
    requires forall j :: 0 <= j < i ==> TestPullRequestBody(now).members[j].0 != key
    ensures DictOrMissing(TestPullRequestPayload(now), "pull_request")
    ensures Sub(TestPullRequestPayload(now), "pull_request") == TestPullRequestBody(now)
    ensures DictOrMissing(TestPullRequestBody(now), key)
    ensures Dig(TestPullRequestPayload(now), ["pull_request", key, inner], default) == v
  {
    CannedPullRequestPath(TestPullRequestPayload(now), TestPullRequestBody(now), "opened", i,
                          key, inner, v, default);
  }

  lemma OpenedFields(now: string)
    ensures var p := TestPullRequestPayload(now);
      && PullRequestReadable(p, "user")
      && Dig(p, ["pull_request", "user", "login"], JStr("Unknown")) == JStr("TestUser")
      && Dig(p, ["pull_request", "head", "ref"], JStr("unknown")) == JStr("feature-branch")
      && Dig(p, ["pull_request", "base", "ref"], JStr("unknown")) == JStr("main")
  {
    OpenedRead(now, 0, "user", "login", JStr("TestUser"), JStr("Unknown"));
    OpenedRead(now, 1, "head", "ref", JStr("feature-branch"), JStr("unknown"));
    OpenedRead(now, 2, "base", "ref", JStr("main"), JStr("unknown"));
  }

  lemma OpenedStamp(now: string, default: Json)
    ensures Dig(TestPullRequestPayload(now), ["pull_request", "created_at"], default) == JStr(now)
  {
    CannedPullRequestKey(TestPullRequestPayload(now), TestPullRequestBody(now), "opened", 3,
                         "created_at", JStr(now), default);
  }

  lemma OpenedAccepted(now: string)
    ensures var p := TestPullRequestPayload(now);
      Accepted(p) && !IsPushShape(p) && IsOpenedShape(p)
      && Dig(p, ["repository", "name"], JStr("unknown")) == JStr("test-repo")
  {
    CannedTop(TestPullRequestPayload(now), TestPullRequestBody(now), "opened");
    OpenedFields(now);
  }

  lemma MergedRead(now: string, i: nat, key: string, inner: string, v: Json, default: Json)
    requires 1 <= i < 4 && TestMergeBody(now).members[i] == (key, Obj1(inner, v))
    requires forall j :: 0 <= j < i ==> TestMergeBody(now).members[j].0 != key
    ensures DictOrMissing(TestMergePayload(now), "pull_request")
    ensures Sub(TestMergePayload(now), "pull_request") == TestMergeBody(now)
    ensures DictOrMissing(TestMergeBody(now), key)
    ensures Dig(TestMergePayload(now), ["pull_request", key, inner], default) == v
  {
    CannedPullRequestPath(TestMergePayload(now), TestMergeBody(now), "closed", i,
                          key, inner, v, default);
  }

  lemma MergedByField(now: string)
    ensures DictOrMissing(TestMergePayload(now), "pull_request")
    ensures DictOrMissing(Sub(TestMergePayload(now), "pull_request"), "merged_by")
    ensures Dig(TestMergePayload(now), ["pull_request", "merged_by", "login"], JStr("Unknown"))
         == JStr("TestUser")
  {
    MergedRead(now, 1, "merged_by", "login", JStr("TestUser"), JStr("Unknown"));
  }

  lemma MergedHeadField(now: string)
    ensures DictOrMissing(Sub(TestMergePayload(now), "pull_request"), "head")
    ensures Dig(TestMergePayload(now), ["pull_request", "head", "ref"], JStr("unknown"))
         == JStr("feature-branch")
  {
    MergedRead(now, 2, "head", "ref", JStr("feature-branch"), JStr("unknown"));
  }

  lemma MergedBaseField(now: string)
    ensures DictOrMissing(Sub(TestMergePayload(now), "pull_request"), "base")
    ensures Dig(TestMergePayload(now), ["pull_request", "base", "ref"], JStr("unknown"))
         == JStr("main")
  {
    MergedRead(now, 3, "base", "ref", JStr("main"), JStr("unknown"));
  }

  lemma MergedFields(now: string)
    ensures var p := TestMergePayload(now);
      && PullRequestReadable(p, "merged_by")
      && Dig(p, ["pull_request", "merged_by", "login"], JStr("Unknown")) == JStr("TestUser")
      && Dig(p, ["pull_request", "head", "ref"], JStr("unknown")) == JStr("feature-branch")
      && Dig(p, ["pull_request", "base", "ref"], JStr("unknown")) == JStr("main")
  {
    MergedByField(now);
    MergedHeadField(now);
    MergedBaseField(now);
  }

  lemma MergedKey(now: string, i: nat, key: string, v: Json, default: Json)
    requires i < 5 && TestMergeBody(now).members[i] == (key, v)
    requires forall j :: 0 <= j < i ==> TestMergeBody(now).members[j].0 != key
    ensures Dig(TestMergePayload(now), ["pull_request", key], default) == v
  {
    CannedPullRequestKey(TestMergePayload(now), TestMergeBody(now), "closed", i, key, v, default);
  }

  lemma MergedStamp(now: string, default: Json)
    ensures Dig(TestMergePayload(now), ["pull_request", "merged_at"], default) == JStr(now)
  {
    MergedKey(now, 4, "merged_at", JStr(now), default);
  }

  lemma MergedAccepted(now: string)
    ensures var p := TestMergePayload(now);
      Accepted(p) && !IsPushShape(p) && !IsOpenedShape(p)
      && Dig(p, ["repository", "name"], JStr("unknown")) == JStr("test-repo")
  {
    CannedTop(TestMergePayload(now), TestMergeBody(now), "closed");
    MergedKey(now, 0, "merged", JBool(true), JBool(false));
    MergedFields(now);
  }

  /** The canned pull request gives the record the dashboard shows, its
      time rendered from the clock. */
  lemma CannedPullRequestRecorded(id: nat, env: Env)
    requires ValidEnv(env)
    ensures
      var now := IsoFormatNaive(env.now) + "Z";
      var shown := Render(env.now.(offsetMinutes := Some(0)), env.libc);
      Normalize(TestPullRequestPayload(now), id, env) == Some(Event(
        id, PullRequest(JStr("feature-branch"), JStr("main")),
        "\"" + "TestUser" + "\" submitted a pull request from \"" + "feature-branch"
        + "\" to \"" + "main" + "\" on " + shown,
        JStr("TestUser"), JStr(shown), JStr("test-repo"), JStr(now)))
  {
    var now := IsoFormatNaive(env.now) + "Z";
    var shown := Render(env.now.(offsetMinutes := Some(0)), env.libc);
    ClockTimestampFormats(env.now, env.libc);
    OpenedAccepted(now);
    OpenedFields(now);
    OpenedStamp(now, DefaultTimestamp(env));
    PullRequestOfFields(TestPullRequestPayload(now), id, env, JStr("TestUser"),
                        JStr("feature-branch"), JStr("main"), JStr(now), JStr("test-repo"));
  }

  /** The canned merge gives the record the dashboard shows. */
  lemma CannedMergeRecorded(id: nat, env: Env)
    requires ValidEnv(env)
    ensures
      var now := IsoFormatNaive(env.now) + "Z";
      var shown := Render(env.now.(offsetMinutes := Some(0)), env.libc);
      Normalize(TestMergePayload(now), id, env) == Some(Event(
        id, Merge(JStr("feature-branch"), JStr("main")),
        "\"" + "TestUser" + "\" merged branch \"" + "feature-branch"
        + "\" to \"" + "main" + "\" on " + shown,
        JStr("TestUser"), JStr(shown), JStr("test-repo"), JStr(now)))
  {
    var now := IsoFormatNaive(env.now) + "Z";
    var shown := Render(env.now.(offsetMinutes := Some(0)), env.libc);
    ClockTimestampFormats(env.now, env.libc);
    MergedAccepted(now);
    MergedFields(now);
    MergedStamp(now, DefaultTimestamp(env));
    MergeOfFields(TestMergePayload(now), id, env, JStr("TestUser"),
                  JStr("feature-branch"), JStr("main"), JStr(now), JStr("test-repo"));
  }
}
