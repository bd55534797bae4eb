/** The app document: one row with a revision, changed by whole replacements and by path mutations. */
module DocumentStore {
  import opened Prelude
  import opened JsonPaths

  const MAX_HTML_BYTES := 128 * 1024
  const MAX_CSS_BYTES := 64 * 1024
  const MAX_JAVASCRIPT_BYTES := 128 * 1024
  const MAX_DATA_BYTES := 256 * 1024
  const MAX_STATE_RESPONSE_BYTES := 900 * 1024

  datatype App = App(revision: nat, html: string, css: string, javascript: string, data: Json, updatedAt: string)

  /** The size of encoded data and of an encoded state, and the pattern that scripts must not contain. */
  datatype Limits = Limits(dataSize: Json -> nat, stateSize: App -> nat, forbidden: string -> bool)

  datatype Action =
    | ReplaceApp(html: string, css: string, javascript: string, data: Json)
    | ReplaceUi(html: string, css: string, javascript: string)
    | ReplaceData(data: Json)
    | Mutation(op: Op, path: seq<RawSegment>)

  datatype Request = Request(expected: nat, action: Action, now: string)

  datatype Refusal = BadBundle | BadData | BadPath | Stale | BadMutation(error: PathError) | TooLarge

  // ---------------------------------------------------------------------------
  // One request

  predicate BundleOk(l: Limits, html: string, css: string, javascript: string) {
    && Utf8Size(html) <= MAX_HTML_BYTES && Utf8Size(css) <= MAX_CSS_BYTES
    && Utf8Size(javascript) <= MAX_JAVASCRIPT_BYTES && !l.forbidden(javascript)
  }

  /** Data is an object of bounded size. */
  predicate DataOk(l: Limits, data: Json) {
    data.Obj? && l.dataSize(data) <= MAX_DATA_BYTES
  }

  predicate PathOk(path: seq<RawSegment>) {
    1 <= |path| <= MAX_PATH_DEPTH && forall i :: 0 <= i < |path| ==> SegmentOk(path[i])
  }

  function ToPath(path: seq<RawSegment>): (p: Path)
    requires PathOk(path)
    ensures |p| == |path| && forall i :: 0 <= i < |p| ==> p[i] == ToSegment(path[i])
  {
    seq(|path|, i requires 0 <= i < |path| => ToSegment(path[i]))
  }

  /** What is wrong with an action before the stored state is looked at. */
  function Objection(l: Limits, a: Action): Option<Refusal> {
    match a
    case ReplaceApp(html, css, javascript, data) =>
      if !BundleOk(l, html, css, javascript) then Some(BadBundle) else if !DataOk(l, data) then Some(BadData) else None
    case ReplaceUi(html, css, javascript) => if !BundleOk(l, html, css, javascript) then Some(BadBundle) else None
    case ReplaceData(data) => if !DataOk(l, data) then Some(BadData) else None
    case Mutation(_, path) => if !PathOk(path) then Some(BadPath) else None
  }

  /** What an action makes of the documents, apart from revision, stamp and limits. */
  function Content(app: App, a: Action): Result<App, Refusal>
    requires a.Mutation? ==> PathOk(a.path)
  {
    match a
    case ReplaceApp(html, css, javascript, data) =>
      Ok(app.(html := html, css := css, javascript := javascript, data := data))
    case ReplaceUi(html, css, javascript) => Ok(app.(html := html, css := css, javascript := javascript))
    case ReplaceData(data) => Ok(app.(data := data))
    case Mutation(op, path) =>
      match Mutate(app.data, ToPath(path), op)
      case Error(e) => Error(BadMutation(e))
      case Ok(data) => Ok(app.(data := data))
  }

  function Apply(l: Limits, app: App, r: Request): Result<App, Refusal> {
    match Objection(l, r.action)
    case Some(refusal) => Error(refusal)
    case None =>
      if app.revision != r.expected then Error(Stale)
      else
        match Content(app, r.action)
        case Error(refusal) => Error(refusal)
        case Ok(changed) =>
          if r.action.Mutation? && !DataOk(l, changed.data) then Error(BadData)
          else
            var candidate := changed.(revision := app.revision + 1, updatedAt := r.now);
            if l.stateSize(candidate) > MAX_STATE_RESPONSE_BYTES then Error(TooLarge) else Ok(candidate)
  }

  // ---------------------------------------------------------------------------
  // Runs

  function After(l: Limits, app: App, r: Request): App {
    if Apply(l, app, r).Ok? then Apply(l, app, r).value else app
  }

  /** The row after some requests, in whatever order their transactions came. */
  function Run(l: Limits, app: App, requests: seq<Request>): App {
    if requests == [] then app
    else After(l, Run(l, app, requests[..|requests| - 1]), requests[|requests| - 1])
  }

  /** The accepted requests, in the order of their revisions. */
  function Accepted(l: Limits, app: App, requests: seq<Request>): seq<Request> {
    if requests == [] then []
    else
      var before, last := requests[..|requests| - 1], requests[|requests| - 1];
      Accepted(l, app, before) + if Apply(l, Run(l, app, before), last).Ok? then [last] else []
  }

  /** Replaying actions: contents only, one increment each, nothing checked. */
  function Replay(app: App, accepted: seq<Request>): Option<App> {
    if accepted == [] then Some(app)
    else
      match Replay(app, accepted[..|accepted| - 1])
      case None => None
      case Some(before) => ReplayOne(before, accepted[|accepted| - 1])
  }

  function ReplayOne(before: App, r: Request): Option<App> {
    if r.action.Mutation? && !PathOk(r.action.path) then None
    else
      match Content(before, r.action)
      case Error(_) => None
      case Ok(changed) => Some(changed.(revision := before.revision + 1, updatedAt := r.now))
  }

  predicate Fits(l: Limits, app: App) {
    app.data.Obj? && l.stateSize(app) <= MAX_STATE_RESPONSE_BYTES
  }

  lemma AcceptedStep(l: Limits, app: App, r: Request)
    requires Apply(l, app, r).Ok?
    ensures ReplayOne(app, r) == Some(Apply(l, app, r).value)
    ensures r.expected == app.revision && Apply(l, app, r).value.revision == app.revision + 1
    ensures app.data.Obj? ==> Fits(l, Apply(l, app, r).value)
  {
  }

  /**
   * After any requests the state is the replay of the accepted ones in revision
   * order, with one increment for each; the response bound holds throughout.
   */
  lemma {:induction false} StateIsReplay(l: Limits, app: App, requests: seq<Request>)
    requires Fits(l, app)
    ensures Replay(app, Accepted(l, app, requests)) == Some(Run(l, app, requests))
    ensures Run(l, app, requests).revision == app.revision + |Accepted(l, app, requests)|
    ensures Fits(l, Run(l, app, requests))
    decreases |requests|
  {
    if requests != [] {
      var before, last := requests[..|requests| - 1], requests[|requests| - 1];
      StateIsReplay(l, app, before);
      var s := Run(l, app, before);
      if Apply(l, s, last).Ok? {
        AcceptedStep(l, s, last);
        var log := Accepted(l, app, before);
        assert (log + [last])[..|log + [last]| - 1] == log;
      } else {
        assert Accepted(l, app, before) + [] == Accepted(l, app, before);
      }
    }
  }

  /** Each accepted request had expected exactly the revision that it found. */
  lemma {:induction false} AcceptedInRevisionOrder(l: Limits, app: App, requests: seq<Request>, i: nat)
    requires Fits(l, app) && i < |Accepted(l, app, requests)|
    ensures Accepted(l, app, requests)[i].expected == app.revision + i
    decreases |requests|
  {
    var before, last := requests[..|requests| - 1], requests[|requests| - 1];
    StateIsReplay(l, app, before);
    if i < |Accepted(l, app, before)| {
      AcceptedInRevisionOrder(l, app, before, i);
    } else {
      AcceptedStep(l, Run(l, app, before), last);
    }
  }

  /** Of the requests that expect one revision at most one is ever accepted. */
  lemma OneWinnerPerRevision(l: Limits, app: App, requests: seq<Request>, i: nat, j: nat)
    requires Fits(l, app) && i < |Accepted(l, app, requests)| && j < |Accepted(l, app, requests)|
    requires Accepted(l, app, requests)[i].expected == Accepted(l, app, requests)[j].expected
    ensures i == j
  {
    AcceptedInRevisionOrder(l, app, requests, i);
    AcceptedInRevisionOrder(l, app, requests, j);
  }

  /** A mutation touches the data only; a replacement of one part leaves the other. */
  lemma PartsLeftAlone(l: Limits, app: App, r: Request)
    requires Apply(l, app, r).Ok?
    ensures var after := Apply(l, app, r).value;
      && (r.action.ReplaceUi? ==> after.data == app.data)
      && (r.action.ReplaceData? || r.action.Mutation? ==>
            after.html == app.html && after.css == app.css && after.javascript == app.javascript)
      && (r.action.Mutation? && r.action.op.Set? ==> Get(after.data, ToPath(r.action.path)) == Some(r.action.op.value))
  {
    if r.action.Mutation? && r.action.op.Set? {
      SetReadsBack(app.data, ToPath(r.action.path), r.action.op.value);
    }
  }

  /** The documents of a replacement are within their bounds. */
  predicate Sendable(l: Limits, a: Action) {
    && (a.ReplaceApp? || a.ReplaceUi? ==>
          Utf8Size(a.html) <= 131_072 && Utf8Size(a.css) <= 65_536 && Utf8Size(a.javascript) <= 131_072 && !l.forbidden(a.javascript))
    && (a.ReplaceApp? || a.ReplaceData? ==> a.data.Obj? && l.dataSize(a.data) <= 262_144)
  }

  /** The row holds what the replacement sent, and what it did not send is as before. */
  predicate Holds(before: App, r: Request, after: App)
    requires !r.action.Mutation?
  {
    match r.action
    case ReplaceApp(html, css, javascript, data) =>
      after == App(before.revision + 1, html, css, javascript, data, r.now)
    case ReplaceUi(html, css, javascript) =>
      after == App(before.revision + 1, html, css, javascript, before.data, r.now)
    case ReplaceData(data) =>
      after == App(before.revision + 1, before.html, before.css, before.javascript, data, r.now)
  }

  /**
   * A replacement is accepted exactly if its documents are within their bounds,
   * it expected the present revision, and the state that it leads to is within the
   * response bound. Then it reads back.
   */
  lemma ReplacementReadsBack(l: Limits, app: App, r: Request)
    requires !r.action.Mutation?
    ensures Apply(l, app, r).Ok? ==> Sendable(l, r.action) && r.expected == app.revision
    ensures Apply(l, app, r).Ok? ==> Holds(app, r, Apply(l, app, r).value) && l.stateSize(Apply(l, app, r).value) <= 921_600
    ensures Sendable(l, r.action) && r.expected == app.revision ==>
      forall after :: Holds(app, r, after) && l.stateSize(after) <= 921_600 ==> Apply(l, app, r) == Ok(after)
  {
  }

  /**
   * A mutation is accepted exactly if its path is valid, it expected the present
   * revision, the tree takes it, and data and state stay within their bounds.
   */
  lemma MutationAccepted(l: Limits, app: App, op: Op, path: seq<RawSegment>, expected: nat, now: string, after: App)
    ensures Apply(l, app, Request(expected, Mutation(op, path), now)) == Ok(after) <==>
      && PathOk(path) && expected == app.revision && Mutate(app.data, ToPath(path), op) == Ok(after.data)
      && after.data.Obj? && l.dataSize(after.data) <= 262_144 && l.stateSize(after) <= 921_600
      && after == App(app.revision + 1, app.html, app.css, app.javascript, after.data, now)
  {
  }

  // ---------------------------------------------------------------------------
  // The row

  class Store {
    const limits: Limits
    var revision: nat
    var html: string
    var css: string
    var javascript: string
    var data: Json
    var updatedAt: string

    constructor (limits: Limits, app: App)
      ensures this.limits == limits && State() == app
    {
      this.limits := limits;
      revision, html, css, javascript := app.revision, app.html, app.css, app.javascript;
      data, updatedAt := app.data, app.updatedAt;
    }

    function State(): App
      reads this
    {
      App(revision, html, css, javascript, data, updatedAt)
    }

    /** A path mutation under the expected revision. */
    method ApplyRuntimeAction(expected: nat, op: Op, raw: seq<RawSegment>, now: string) returns (r: Result<App, Refusal>)
      modifies this
      ensures r == Apply(limits, old(State()), Request(expected, Mutation(op, raw), now))
      ensures State() == After(limits, old(State()), Request(expected, Mutation(op, raw), now))
    {
      var path := ValidatedPath(Some(raw));
      if path.None? {
        return Error(BadPath);
      }
      if revision != expected {
        return Error(Stale);
      }
      assert path.value == ToPath(raw);
      var updated := MutateData(data, path.value, op);
      if updated.Error? {
        return Error(BadMutation(updated.error));
      }
      if !DataOk(limits, updated.value) {
        return Error(BadData);
      }
      var candidate := State().(data := updated.value, revision := revision + 1, updatedAt := now);
      if limits.stateSize(candidate) > MAX_STATE_RESPONSE_BYTES {
        return Error(TooLarge);
      }
      data, revision, updatedAt := updated.value, revision + 1, now;
      return Ok(State());
    }

    /** A replacement of the interface, the data or both under the expected revision. */
    method UpdateState(request: Request) returns (r: Result<App, Refusal>)
      requires !request.action.Mutation?
      modifies this
      ensures r == Apply(limits, old(State()), request)
      ensures State() == After(limits, old(State()), request)
    {
      var objection := Objection(limits, request.action);
      if objection.Some? {
        return Error(objection.value);
      }
      if revision != request.expected {
        return Error(Stale);
      }
      var candidate := State().(revision := revision + 1, updatedAt := request.now);
      match request.action {
        case ReplaceApp(newHtml, newCss, newScript, newData) =>
          candidate := candidate.(html := newHtml, css := newCss, javascript := newScript, data := newData);
        case ReplaceUi(newHtml, newCss, newScript) =>
          candidate := candidate.(html := newHtml, css := newCss, javascript := newScript);
        case ReplaceData(newData) => candidate := candidate.(data := newData);
      }
      if limits.stateSize(candidate) > MAX_STATE_RESPONSE_BYTES {
        return Error(TooLarge);
      }
      html, css, javascript, data := candidate.html, candidate.css, candidate.javascript, candidate.data;
      revision, updatedAt := revision + 1, request.now;
      return Ok(State());
    }
  }
}
