/** bridge/device/cloud: the cloud manager.

    The handlers run one after the other in the event loop. Between any two of
    their statements a connection may break, its close callback may run, and other
    goroutines may call the manager's API; `Interleave` stands for any number of
    these, and is left out between statements that commute with all of them.
    Answers, dial results, expiry of the credentials and the device's links are
    chosen freely. The other goroutines make finitely many calls. */
module CloudManager {

  import opened Wrappers
  import UnpublishQuery

  type Conn = nat

  datatype Status = UNINITIALIZED | READY_TO_REGISTER | REGISTERING | REGISTERED | DEREGISTERING

  datatype Configuration = Configuration(
    authorizationProvider: string, cloudID: string, url: string, authorizationCode: string)

  const NO_CONFIGURATION := Configuration("", "", "", "")

  datatype Credentials = Credentials(accessToken: string, userID: string, refreshToken: string)

  const NO_CREDENTIALS := Credentials("", "", "")

  datatype Code = Changed | Deleted | Unauthorized | Other

  /** `creds` is what the body decodes to, None when it does not decode. */
  datatype Response = NoAnswer | Answer(code: Code, creds: Option<Credentials>)

  datatype Request =
    | SignUp | SignIn(token: string) | RefreshToken | SignOff
    | Publish(hrefs: set<string>) | Unpublish(batch: seq<string>)

  /** A request, the connection it went out on, the status and the access token at that time, the
      token with which that connection had last got a successful sign-in answer by
      then, and what came back. */
  datatype Sent = Sent(
    req: Request, conn: Conn, status: Status, token: string, session: Option<string>, resp: Response)

  /** The requests that went out, the newest one last. */
  datatype Log = Empty | Entry(before: Log, last: Sent)

  /** The code a request that sets something waits for. */
  predicate Succeeded(resp: Response) {
    resp.Answer? && resp.code == Changed
  }

  /** The answer a request hopes for. */
  predicate Good(req: Request, resp: Response) {
    match req
    case SignOff => resp.Answer? && resp.code == Deleted
    case Unpublish(_) => resp.Answer? && resp.code == Deleted
    case Publish(_) => Succeeded(resp)
    case SignIn(_) => Succeeded(resp) && resp.creds.Some?
    case _ => Succeeded(resp) && resp.creds.Some? && resp.creds.value.accessToken != ""
  }

  /** At most one request went out since, and it is this one. */
  predicate AtMostOne(sent0: Log, sent1: Log, req: Request) {
    sent1 == sent0 || (sent1.Entry? && sent1.before == sent0 && sent1.last.req == req)
  }

  /** The one request that went out since was answered with this code. */
  predicate Got(sent0: Log, sent1: Log, code: Code) {
    sent1 != sent0 && sent1.Entry? && sent1.before == sent0 && sent1.last.resp.Answer? && sent1.last.resp.code == code
  }

  /** Publishing requires a connection signed in with the current token. */
  predicate Authorized(e: Sent) {
    e.req.Publish? || e.req.Unpublish? ==> e.session == Some(e.token)
  }

  /** An authorized request, and an unpublish request with 1 to 10 hrefs. */
  predicate Allowed(e: Sent) {
    Authorized(e) && (e.req.Unpublish? ==> 1 <= |e.req.batch| <= 10)
  }

  predicate AllAllowed(sent: Log) {
    sent.Entry? ==> Allowed(sent.last) && AllAllowed(sent.before)
  }

  predicate In(e: Sent, sent: Log) {
    sent.Entry? && (e == sent.last || In(e, sent.before))
  }

  lemma {:induction false} EachIsAllowed(sent: Log, e: Sent)
    requires AllAllowed(sent) && In(e, sent)
    ensures e.req.Publish? || e.req.Unpublish? ==> e.session == Some(e.token)
    ensures e.req.Unpublish? ==> 1 <= |e.req.batch| <= 10
  {
    if e != sent.last {
      EachIsAllowed(sent.before, e);
    }
  }

  /** The query of every unpublish request fits, with any device ID of 36 characters. */
  lemma EachQueryFits(sent: Log, e: Sent, deviceID: string, crc: string -> UnpublishQuery.Uint32)
    requires AllAllowed(sent) && In(e, sent) && e.req.Unpublish? && |deviceID| == UnpublishQuery.UUID_LEN
    ensures |UnpublishQuery.Query(deviceID, e.req.batch, crc)| <= 189 <= UnpublishQuery.MAX_URI_QUERY_LEN
  {
    EachIsAllowed(sent, e);
    UnpublishQuery.BatchFits(deviceID, e.req.batch, crc);
  }

  /** A nil map is an empty one. */
  function Elements(m: Option<set<string>>): set<string> {
    match m case None => {} case Some(s) => s
  }

  function Set(xs: seq<string>): set<string> {
    set x | x in xs
  }

  ghost predicate Distinct(xs: seq<string>) {
    forall i, j | 0 <= i < j < |xs| :: xs[i] != xs[j]
  }

  /** The struct `private` of the source, guarded by its mutex. */
  datatype Private = Private(
    cfg: Configuration, status: Status,
    readyToPublish: Option<set<string>>, readyToUnpublish: Option<set<string>>,
    creds: Credentials, client: Option<Conn>, signedIn: bool)

  /** Without a cloud URL the status is UNINITIALIZED. */
  predicate StatusOk(p: Private) {
    p.cfg.url == "" ==> p.status == UNINITIALIZED
  }

  /** Without a client, or signed in and REGISTERED. */
  predicate Settled(p: Private) {
    p.client == None || (p.signedIn && p.status == REGISTERED)
  }

  /** REGISTERED and connected means signed in. */
  predicate RegisteredOk(p: Private) {
    p.status == REGISTERED && p.client.Some? ==> p.signedIn
  }

  /** Signed in with a client means that this very client got a successful sign-in
      answer with the current access token; and the two queues are disjoint. */
  ghost predicate Consistent(p: Private, sessions: map<Conn, string>) {
    && (p.signedIn && p.client.Some? ==> p.client.value in sessions && sessions[p.client.value] == p.creds.accessToken)
    && Elements(p.readyToPublish) !! Elements(p.readyToUnpublish)
  }

  /** What signing up takes. */
  predicate CanSignUp(p: Private) {
    p.cfg.authorizationCode != "" && p.cfg.authorizationProvider != ""
  }

  /** What getting signed in takes: an access token, or a way to one. */
  predicate CanSignIn(p: Private, refresh: bool) {
    p.creds.accessToken != "" || (refresh && p.creds.refreshToken != "") || CanSignUp(p)
  }

  /** The private struct with this configuration. */
  function Configured(p: Private, c: Configuration): Private {
    if c.url == "" then p.(cfg := c, status := UNINITIALIZED, readyToPublish := None, readyToUnpublish := None)
    else p.(cfg := c, status := READY_TO_REGISTER)
  }

  /** Nothing is configured and nothing waits to be published or unpublished. */
  predicate Unconfigured(p: Private) {
    p.cfg == Configuration("", "", "", "") && p.status == UNINITIALIZED &&
    p.readyToPublish == None && p.readyToUnpublish == None
  }

  predicate Acceptable(c: Configuration) {
    c.url == "" || (c.cloudID != "" && c.authorizationProvider != "")
  }

  /** The trigger channel holds ten. */
  function Triggered(trigger: seq<bool>, reset: bool): seq<bool> {
    if |trigger| < 10 then trigger + [reset] else trigger
  }

  /** What the environment may do to the private struct: break the connection, and
      with `calls` anything the API does. */
  ghost predicate Disturbed(p: Private, p': Private, calls: bool) {
    && p'.creds == p.creds
    && ((p'.client == p.client && p'.signedIn == p.signedIn) || (p'.client == None && !p'.signedIn))
    && (!calls ==> p' == p.(client := p'.client, signedIn := p'.signedIn))
    && (StatusOk(p) ==> StatusOk(p'))
    && (p'.status == REGISTERED ==> p.status == REGISTERED)
  }

  /** A client whose connection is still open is still the client, and as signed in as before. */
  ghost predicate Stays(p: Private, p': Private, open: set<Conn>) {
    p.client.Some? && p.client.value in open ==> p'.client == p.client && p'.signedIn == p.signedIn
  }

  /** refreshToken: without a refresh token nothing happens; with one, only a new
      pair of tokens is a success, and it takes a new sign-in; a refused token ends
      the registration. */
  ghost predicate Refreshed(p0: Private, p1: Private, sent0: Log, sent1: Log, ok: bool) {
    && AtMostOne(sent0, sent1, RefreshToken)
    && (p0.creds.refreshToken == "" ==> ok && p1 == p0 && sent1 == sent0)
    && (p0.creds.refreshToken != "" && ok ==>
          && Got(sent0, sent1, Changed) && sent1.last.resp.creds.Some? && !p1.signedIn
          && var answer := sent1.last.resp.creds.value;
             p1.creds == Credentials(answer.accessToken, p0.creds.userID, answer.refreshToken))
    && (Got(sent0, sent1, Changed) && sent1.last.resp.creds.Some? ==> ok)
    && (Got(sent0, sent1, Unauthorized) ==> !ok && p1.creds == NO_CREDENTIALS && p1.client == None)
    && (!ok && !Got(sent0, sent1, Unauthorized) ==> p1.creds == p0.creds)
  }

  /** signUp: with an access token nothing happens; otherwise it takes the
      credentials of the answer. */
  ghost predicate SignedUp(p0: Private, p1: Private, sent0: Log, sent1: Log, ok: bool) {
    && AtMostOne(sent0, sent1, SignUp)
    && (p0.creds.accessToken != "" ==> ok && p1 == p0 && sent1 == sent0)
    && (p0.creds.accessToken == "" && ok ==>
          Got(sent0, sent1, Changed) && sent1.last.resp.creds == Some(p1.creds) && !p1.signedIn)
    && (Got(sent0, sent1, Changed) && sent1.last.resp.creds.Some? ==> ok)
    && (!ok ==> p1.creds == p0.creds)
  }

  /** signIn: without an error the client is gone or signed in; a refused access
      token ends the registration or forces a refresh. */
  ghost predicate SignedIn(p0: Private, p1: Private, sent0: Log, sent1: Log, ok: bool, force: bool) {
    && AtMostOne(sent0, sent1, SignIn(p0.creds.accessToken))
    && (ok ==> (p1.client == None || p1.signedIn) && p1.creds == p0.creds)
    && (ok && sent1 != sent0 ==> Got(sent0, sent1, Changed) && sent1.last.resp.creds.Some? && p1.signedIn)
    && (!Got(sent0, sent1, Unauthorized) ==> p1.creds == p0.creds)
    && (Got(sent0, sent1, Changed) && sent1.last.resp.creds.Some? ==> ok)
    && (Got(sent0, sent1, Unauthorized) ==>
          !ok && if p0.creds.refreshToken == "" then p1.creds == NO_CREDENTIALS && p1.client == None
                 else p1.creds == p0.creds && force)
  }

  function ToPublish(ready: set<string>, links: set<string>, published: bool): set<string> {
    if published then links * ready else links
  }

  /** publishResources: all links the first time, later those made ready since; a
      success is remembered, and nothing is sent when there is nothing to send. */
  ghost predicate Published(ready: set<string>, links: set<string>, before: bool, after: bool,
                            sent0: Log, sent1: Log, ok: bool)
  {
    var hrefs := ToPublish(ready, links, before);
    && AtMostOne(sent0, sent1, Publish(hrefs))
    && (sent1 != sent0 ==> hrefs != {})
    && (ok && hrefs == {} ==> sent1 == sent0 && after == before)
    && (ok && hrefs != {} ==> Got(sent0, sent1, Changed) && after)
    && (!ok ==> hrefs != {} && after == before)
  }

  ghost predicate Popped(before: set<string>, after: set<string>, batch: seq<string>, count: nat) {
    && Distinct(batch) && Set(batch) !! after && Set(batch) + after == before
    && |batch| <= count && (after != {} ==> |batch| == count)
  }

  lemma SetAppend(xs: seq<string>, x: string)
    ensures Set(xs + [x]) == Set(xs) + {x}
  {
  }

  /** Any `count` elements, or all. */
  method Take(s: set<string>, count: nat) returns (taken: seq<string>, rest: set<string>)
    ensures Popped(s, rest, taken, count)
  {
    taken, rest := [], s;
    while |taken| < count && rest != {}
      invariant Popped(s, rest, taken, |taken|) && |taken| <= count
      decreases |rest|
    {
      var x :| x in rest;
      SetAppend(taken, x);
      assert forall y | y in taken :: y in Set(taken);
      taken, rest := taken + [x], rest - {x};
    }
  }

  lemma {:induction false} SetSize(xs: seq<string>)
    requires Distinct(xs)
    ensures |Set(xs)| == |xs|
  {
    if xs != [] {
      var init, last := xs[..|xs|-1], xs[|xs|-1];
      SetSize(init);
      assert xs == init + [last];
      SetAppend(init, last);
    }
  }

  lemma PoppedIsFewer(before: set<string>, after: set<string>, batch: seq<string>, count: nat)
    requires Popped(before, after, batch, count)
    ensures |before| == |after| + |batch|
  {
    SetSize(batch);
  }

  /** The batches of the unpublish requests since, in order. */
  ghost function Batches(sent0: Log, sent1: Log): seq<seq<string>>
    requires Ranked(sent0, sent1, 4, 4)
  {
    if sent1 == sent0 then [] else Batches(sent0, sent1.before) + [sent1.last.req.batch]
  }

  ghost function Flat(batches: seq<seq<string>>): seq<string> {
    if batches == [] then [] else Flat(batches[..|batches|-1]) + batches[|batches|-1]
  }

  /** The batches hold each of the hrefs once, are not empty and at most 10 long, and
      there are no more of them than that takes. */
  ghost predicate Batched(batches: seq<seq<string>>, hrefs: set<string>) {
    && (forall b | b in batches :: 1 <= |b| <= 10)
    && Distinct(Flat(batches)) && Set(Flat(batches)) == hrefs
    && |batches| == (|hrefs| + 9) / 10
  }

  /** The batches popped one after the other, when `rest` is still to be popped. */
  ghost predicate Partial(batches: seq<seq<string>>, rest: set<string>, hrefs: set<string>) {
    if batches == [] then rest == hrefs
    else
      var last := batches[|batches|-1];
      last != [] && Popped(rest + Set(last), rest, last, 10) && Partial(batches[..|batches|-1], rest + Set(last), hrefs)
  }

  lemma RoundKeepsPartial(sent0: Log, sent1: Log, sent2: Log,
                          before: set<string>, after: set<string>, batch: seq<string>, hrefs: set<string>)
    requires Ranked(sent0, sent1, 4, 4) && AtMostOne(sent1, sent2, Unpublish(batch)) && Ranked(sent0, sent2, 4, 4)
    requires Partial(Batches(sent0, sent1), before, hrefs)
    requires Popped(before, after, batch, 10) && (sent2 == sent1 <==> batch == [])
    ensures Partial(Batches(sent0, sent2), after, hrefs) && (sent2 == sent1 ==> after == {})
  {
    if batch == [] {
      assert after == before;
    } else {
      RankedExtends(sent0, sent1, 4, 4);
      var batches := Batches(sent0, sent1);
      assert Batches(sent0, sent2) == batches + [batch];
      assert (batches + [batch])[..|batches|] == batches && after + Set(batch) == before;
    }
  }

  lemma {:induction false} PartialFacts(batches: seq<seq<string>>, rest: set<string>, hrefs: set<string>)
    requires Partial(batches, rest, hrefs)
    ensures forall b | b in batches :: 1 <= |b| <= 10
    ensures Distinct(Flat(batches)) && Set(Flat(batches)) !! rest && Set(Flat(batches)) + rest == hrefs
    ensures 10 * (|batches| - 1) < |Flat(batches)| <= 10 * |batches|
    ensures rest != {} ==> |Flat(batches)| == 10 * |batches|
  {
    if batches != [] {
      var init, last := batches[..|batches|-1], batches[|batches|-1];
      PartialFacts(init, rest + Set(last), hrefs);
      assert last[0] in Set(last);
      var flat := Flat(init);
      assert Set(flat + last) == Set(flat) + Set(last);
      forall i, j | 0 <= i < j < |flat + last| ensures (flat + last)[i] != (flat + last)[j] {
        if i < |flat| <= j {
          assert flat[i] in Set(flat) && last[j - |flat|] in Set(last);
        }
      }
    }
  }

  lemma PartialIsBatched(batches: seq<seq<string>>, hrefs: set<string>)
    requires Partial(batches, {}, hrefs)
    ensures Batched(batches, hrefs)
  {
    PartialFacts(batches, {}, hrefs);
    SetSize(Flat(batches));
  }

  function Rank(req: Request): nat {
    match req
    case RefreshToken => 0
    case SignUp => 1
    case SignIn(_) => 2
    case Publish(_) => 3
    case Unpublish(_) => 4
    case SignOff => 5
  }

  function Size(sent: Log): nat {
    if sent.Entry? then 1 + Size(sent.before) else 0
  }

  /** The requests since went out in the order of their ranks, from `low` up to `high`. */
  predicate Ranked(sent0: Log, sent1: Log, low: nat, high: nat) {
    sent1 == sent0 ||
    (sent1.Entry? && low <= Rank(sent1.last.req) <= high && Ranked(sent0, sent1.before, low, Rank(sent1.last.req)))
  }

  lemma {:induction false} RankedExtends(sent0: Log, sent1: Log, low: nat, high: nat)
    requires Ranked(sent0, sent1, low, high)
    ensures Size(sent0) <= Size(sent1)
  {
    if sent1 != sent0 {
      RankedExtends(sent0, sent1.before, low, Rank(sent1.last.req));
    }
  }

  lemma {:induction false} RankedAppend(sent0: Log, sent1: Log, sent2: Log, low: nat, middle: nat, high: nat)
    requires Ranked(sent0, sent1, low, middle) && Ranked(sent1, sent2, middle, high) && low <= middle <= high
    ensures Ranked(sent0, sent2, low, high)
  {
    if sent2 != sent1 {
      RankedAppend(sent0, sent1, sent2.before, low, middle, Rank(sent2.last.req));
    }
  }

  /** A token was refreshed since. */
  predicate Refreshes(sent0: Log, sent1: Log) {
    sent1 != sent0 && sent1.Entry? && (sent1.last.req.RefreshToken? || Refreshes(sent0, sent1.before))
  }

  lemma {:induction false} RefreshesFirst(sent0: Log, sent1: Log, sent2: Log, low: nat, high: nat)
    requires AtMostOne(sent0, sent1, RefreshToken) && Ranked(sent1, sent2, low, high) && low > 0
    ensures Refreshes(sent0, sent2) <==> sent1 != sent0
  {
    if sent2 != sent1 {
      RankedExtends(sent1, sent2.before, low, Rank(sent2.last.req));
      RefreshesFirst(sent0, sent1, sent2.before, low, Rank(sent2.last.req));
    }
  }

  lemma {:induction false} RefreshesBefore(sent0: Log, sent1: Log, sent2: Log, low: nat, high: nat)
    requires Ranked(sent1, sent2, low, high) && Size(sent0) <= Size(sent1) && low > 0
    ensures Refreshes(sent0, sent2) <==> Refreshes(sent0, sent1)
  {
    if sent2 != sent1 {
      RankedExtends(sent1, sent2.before, low, Rank(sent2.last.req));
      RefreshesBefore(sent0, sent1, sent2.before, low, Rank(sent2.last.req));
    }
  }

  function Session(sessions: map<Conn, string>, c: Conn): Option<string> {
    if c in sessions then Some(sessions[c]) else None
  }

  /** What connect has published: the hrefs it had to choose from, and the log before and
      after the publish request, if there was one. */
  datatype Round = Round(links: set<string>, signed: Log, published: Log)

  /** After the requests for signing in, the publish request and then the unpublish
      requests, for these hrefs. */
  ghost predicate Delivers(round: Round, ready: set<string>, unready: set<string>, before: bool, after: bool,
                           sent0: Log, sent1: Log)
  {
    && Ranked(sent0, round.signed, 0, 2)
    && Published(ready, round.links, before, after, round.signed, round.published, true)
    && Ranked(round.published, sent1, 4, 4) && Batched(Batches(round.published, sent1), unready)
  }

  /** The publish request is about this href. */
  predicate Announces(round: Round, href: string) {
    && round.published != round.signed && round.published.Entry?
    && round.published.last.req.Publish? && href in round.published.last.req.hrefs
  }

  /** All links the first time, and later exactly those that were ready. */
  lemma AnnouncesExactly(round: Round, ready: set<string>, unready: set<string>, before: bool, after: bool,
                         sent0: Log, sent1: Log, href: string)
    requires Delivers(round, ready, unready, before, after, sent0, sent1)
    ensures Announces(round, href) <==> href in round.links && (!before || href in ready)
  {
    assert href in ToPublish(ready, round.links, before) <==> href in round.links && (!before || href in ready);
  }

  predicate SameQueues(p0: Private, p1: Private) {
    p1.readyToPublish == p0.readyToPublish && p1.readyToUnpublish == p0.readyToUnpublish
  }

  /** The handler of a trigger forgets what is ready unless the manager is signed in. */
  function Remembered(hrefs: Option<set<string>>, signedIn: bool): set<string> {
    if signedIn then Elements(hrefs) else {}
  }

  /** Nothing waits to be published or unpublished. */
  predicate NothingWaits(p: Private) {
    Elements(p.readyToPublish) == {} && Elements(p.readyToUnpublish) == {}
  }

  class Manager {
    var p: Private
    // used by the handlers only
    var resourcesPublished: bool
    var forceRefreshToken: bool
    // shared
    var reconnect: bool
    var trigger: seq<bool>
    // environment and history
    var dialed: nat                         // connections made so far: 1..dialed
    var open: set<Conn>
    var callsLeft: nat                      // API calls the other goroutines still make
    ghost var sessions: map<Conn, string>   // token of the last successful sign-in answer
    ghost var sent: Log
    ghost var marked: bool                  // a status but UNINITIALIZED was set since the configuration was
    ghost var bad: nat                      // how many requests, dials and connections have failed
    ghost var cleared: nat                  // how many API calls have cleared the cloud URL

    /** Without a cloud URL the status is wrong exactly if it was set after the
        configuration. */
    ghost predicate Valid()
      reads this`p, this`sessions, this`trigger, this`marked
    {
      Consistent(p, sessions) && |trigger| <= 10 && (StatusOk(p) <==> p.cfg.url != "" || !marked)
    }

    /** Every request so far was allowed. */
    ghost predicate Logged()
      reads this`sent
    {
      AllAllowed(sent)
    }

    /** What every step of a handler keeps, from the state it started in: the
        invariants, the log, and while no call from elsewhere clears the URL the status;
        and a step without an error leaves the configuration alone. */
    ghost predicate Kept(p0: Private, calls0: nat, cleared0: nat, bad0: nat, ok: bool)
      reads this
    {
      && Valid() && Logged()
      && callsLeft <= calls0 && cleared0 <= cleared && (callsLeft == calls0 ==> cleared == cleared0) && bad0 <= bad
      && (cleared == cleared0 && p0.cfg.url != "" ==> StatusOk(p) && (ok ==> p.cfg.url != ""))
      && (callsLeft == calls0 && p0.cfg.url != "" && ok ==> p.cfg == p0.cfg)
    }

    /** What may have happened between two statements. */
    ghost predicate Interfered(p0: Private, open0: set<Conn>, calls0: nat, cleared0: nat, marked0: bool, bad0: nat)
      reads this
    {
      && Valid() && Disturbed(p0, p, callsLeft < calls0)
      && open <= open0 && Stays(p0, p, open)
      && bad0 <= bad && (bad == bad0 ==> open == open0 && p.client == p0.client && p.signedIn == p0.signedIn)
      && callsLeft <= calls0 && cleared0 <= cleared && (marked ==> marked0)
      && (cleared == cleared0 && p0.cfg.url != "" ==> p.cfg.url != "")
      && (callsLeft == calls0 ==> cleared == cleared0 && marked == marked0)
    }

    /** There is a client, and its connection is open. */
    ghost predicate Connected()
      reads this`p, this`open
    {
      p.client.Some? && p.client.value in open
    }

    /** Nothing has failed and no one has called since. */
    ghost predicate Undisturbed(bad0: nat, calls0: nat)
      reads this`bad, this`callsLeft
    {
      bad == bad0 && callsLeft == calls0
    }

    /** New and importConfig. */
    constructor (cfg: Configuration, creds: Credentials, calls: nat)
      ensures Valid() && Logged() && StatusOk(p) && RegisteredOk(p) && callsLeft == calls
      ensures p.cfg == cfg.(authorizationCode := "") && p.creds == creds && p.client == None && !p.signedIn
      ensures !resourcesPublished && !forceRefreshToken && !reconnect && trigger == [] && sent == Empty && open == {}
    {
      p := Private(NO_CONFIGURATION, UNINITIALIZED, None, None, NO_CREDENTIALS, None, false);
      resourcesPublished, forceRefreshToken, reconnect, trigger := false, false, false, [];
      dialed, open, callsLeft, sessions, sent := 0, {}, calls, map[], Empty;
      marked, bad, cleared := false, 0, 0;
      new;
      SetCloudConfiguration(cfg.(authorizationCode := ""));
      SetCreds(creds);
    }

    // ------------------------------------------------------------------ the API

    method TriggerRunner(reset: bool)
      modifies this`trigger
      ensures trigger == Triggered(old(trigger), reset)
    {
      if |trigger| < 10 {
        trigger := trigger + [reset];
      }
    }

    method SetCloudConfiguration(c: Configuration)
      requires Valid()
      modifies this`p, this`marked
      ensures Valid() && p == Configured(old(p), c) && !marked
    {
      p := p.(cfg := c);
      if c.url == "" {
        p := p.(status := UNINITIALIZED, readyToPublish := None, readyToUnpublish := None);
      } else {
        p := p.(status := READY_TO_REGISTER);
      }
      marked := false;
    }

    /** Post of the cloud configuration resource; false is a bad request. */
    method Post(c: Option<Configuration>) returns (ok: bool)
      requires Valid()
      modifies this`p, this`trigger, this`marked
      ensures Valid() && Disturbed(old(p), p, true) && (marked ==> old(marked))
      ensures ok <==> c.Some? && Acceptable(c.value)
      ensures ok ==> p == Configured(old(p), if c.value.url == "" then NO_CONFIGURATION else c.value)
      ensures ok && c.value.url == "" ==> Unconfigured(p) && p.creds == old(p).creds && p.client == old(p).client
      ensures ok && c.value.url != "" ==> p == old(p).(cfg := c.value, status := READY_TO_REGISTER)
      ensures trigger == if ok then Triggered(old(trigger), true) else old(trigger)
      ensures ok ==> (true in trigger <==> |old(trigger)| < 10 || true in old(trigger))
      ensures !ok ==> p == old(p)
    {
      if c == None {
        return false;
      }
      if c.value.url == "" {
        SetCloudConfiguration(NO_CONFIGURATION);
      } else {
        if c.value.cloudID == "" || c.value.authorizationProvider == "" {
          return false;
        }
        SetCloudConfiguration(c.value);
      }
      TriggerRunner(true);
      return true;
    }

    method Unregister()
      requires Valid()
      modifies this`p, this`trigger, this`marked
      ensures Valid() && Disturbed(old(p), p, true) && !marked
      ensures p == Configured(old(p), NO_CONFIGURATION) && trigger == Triggered(old(trigger), true)
      ensures Unconfigured(p) && p.creds == old(p).creds && p.client == old(p).client && p.signedIn == old(p).signedIn
      ensures true in trigger <==> |old(trigger)| < 10 || true in old(trigger)
    {
      SetCloudConfiguration(NO_CONFIGURATION);
      TriggerRunner(true);
    }

    method PublishResources(hrefs: seq<string>)
      requires Valid()
      modifies this`p, this`trigger
      ensures Valid() && p == old(p).(readyToPublish := p.readyToPublish, readyToUnpublish := p.readyToUnpublish)
      ensures Elements(p.readyToPublish) == Elements(old(p).readyToPublish) + Set(hrefs)
      ensures Elements(p.readyToUnpublish) == Elements(old(p).readyToUnpublish) - Set(hrefs)
      ensures trigger == Triggered(old(trigger), false)
    {
      var publish := Elements(p.readyToPublish);
      var unpublish := p.readyToUnpublish;
      for i := 0 to |hrefs|
        invariant publish == Elements(p.readyToPublish) + Set(hrefs[..i])
        invariant Elements(unpublish) == Elements(p.readyToUnpublish) - Set(hrefs[..i])
      {
        assert hrefs[..i + 1] == hrefs[..i] + [hrefs[i]];
        assert Set(hrefs[..i + 1]) == Set(hrefs[..i]) + {hrefs[i]};
        publish := publish + {hrefs[i]};
        if unpublish.Some? {
          unpublish := Some(unpublish.value - {hrefs[i]});
        }
      }
      assert hrefs[..|hrefs|] == hrefs;
      p := p.(readyToPublish := Some(publish), readyToUnpublish := unpublish);
      TriggerRunner(false);
    }

    method UnpublishResources(hrefs: seq<string>)
      requires Valid()
      modifies this`p, this`trigger
      ensures Valid() && p == old(p).(readyToPublish := p.readyToPublish, readyToUnpublish := p.readyToUnpublish)
      ensures Elements(p.readyToUnpublish) == Elements(old(p).readyToUnpublish) + Set(hrefs)
      ensures Elements(p.readyToPublish) == Elements(old(p).readyToPublish) - Set(hrefs)
      ensures trigger == Triggered(old(trigger), false)
    {
      var unpublish := Elements(p.readyToUnpublish);
      var publish := p.readyToPublish;
      for i := 0 to |hrefs|
        invariant unpublish == Elements(p.readyToUnpublish) + Set(hrefs[..i])
        invariant Elements(publish) == Elements(p.readyToPublish) - Set(hrefs[..i])
      {
        assert hrefs[..i + 1] == hrefs[..i] + [hrefs[i]];
        assert Set(hrefs[..i + 1]) == Set(hrefs[..i]) + {hrefs[i]};
        unpublish := unpublish + {hrefs[i]};
        if publish.Some? {
          publish := Some(publish.value - {hrefs[i]});
        }
      }
      assert hrefs[..|hrefs|] == hrefs;
      p := p.(readyToPublish := publish, readyToUnpublish := Some(unpublish));
      TriggerRunner(false);
    }

    method Reconnect()
      modifies this`reconnect, this`trigger
      ensures reconnect && trigger == Triggered(old(trigger), false)
    {
      reconnect := true;
      TriggerRunner(false);
    }

    /** The callback dial registers with conn.AddOnClose. */
    method OnClose(conn: Conn)
      modifies this`p
      ensures p == if old(p).client == Some(conn) then old(p).(client := None, signedIn := false) else old(p)
    {
      if p.client == Some(conn) {
        p := p.(client := None, signedIn := false);
      }
    }

    /** One API call of another goroutine. */
    method AnyCall()
      requires Valid()
      modifies this`p, this`trigger, this`reconnect, this`marked, this`cleared
      ensures Valid() && Disturbed(old(p), p, true) && p.client == old(p).client && p.signedIn == old(p).signedIn
      ensures (marked ==> old(marked)) && old(cleared) <= cleared
      ensures cleared == old(cleared) && old(p).cfg.url != "" ==> p.cfg.url != ""
      ensures cleared > old(cleared) ==> cleared == old(cleared) + 1 && Unconfigured(p)
    {
      var which: nat := *;
      var hrefs: seq<string> := *;
      var c: Option<Configuration> := *;
      if which == 0 { PublishResources(hrefs); }
      else if which == 1 { UnpublishResources(hrefs); }
      else if which == 2 {
        var accepted := Post(c);
        if accepted && p.cfg.url == "" { cleared := cleared + 1; }
      } else if which == 3 {
        Unregister();
        cleared := cleared + 1;
      }
      else { Reconnect(); }
    }

    /** Connections break at any time; their close callbacks run some time later. */
    method Breaks()
      requires Valid()
      modifies this`p, this`open, this`bad
      ensures Valid() && Disturbed(old(p), p, false)
      ensures open <= old(open) && Stays(old(p), p, open)
      ensures old(bad) <= bad && (bad == old(bad) ==> open == old(open) && p == old(p))
    {
      var breaks: nat := *;
      while breaks > 0
        invariant Valid() && Disturbed(old(p), p, false)
        invariant open <= old(open) && Stays(old(p), p, open)
        invariant old(bad) <= bad && (bad == old(bad) ==> open == old(open) && p == old(p))
      {
        var broken: Conn := *;
        if broken in open || p.client == Some(broken) { bad := bad + 1; }
        if broken in open { open := open - {broken}; } else { OnClose(broken); }
        breaks := breaks - 1;
      }
    }

    /** What may happen between two statements of a handler. However many connections
        break and however late their callbacks run, a client whose own connection is
        open keeps its sign-in. */
    method Interleave()
      requires Valid()
      modifies this`p, this`trigger, this`reconnect, this`open, this`callsLeft, this`marked, this`cleared, this`bad
      ensures Interfered(old(p), old(open), old(callsLeft), old(cleared), old(marked), old(bad))
      ensures callsLeft == old(callsLeft) ==> trigger == old(trigger) && reconnect == old(reconnect)
    {
      Breaks();
      var calls: nat := *;
      while calls > 0 && callsLeft > 0
        invariant Interfered(old(p), old(open), old(callsLeft), old(cleared), old(marked), old(bad))
        invariant callsLeft == old(callsLeft) ==> trigger == old(trigger) && reconnect == old(reconnect)
      {
        AnyCall();
        callsLeft := callsLeft - 1;
        calls := calls - 1;
      }
    }

    // -------------------------------------------------------- parts of the handlers

    method ReplaceClient(c: Option<Conn>) returns (oldClient: Option<Conn>)
      requires Valid()
      modifies this`p
      ensures Valid() && p == old(p).(client := c, signedIn := false) && oldClient == old(p).client
    {
      oldClient := p.client;
      p := p.(client := c, signedIn := false);
    }

    /** close: the old connection, if any, is closed. */
    method Close()
      requires Valid()
      modifies this`p, this`open
      ensures Valid() && p == old(p).(client := None, signedIn := false)
      ensures open == old(open) - if old(p).client.Some? then {old(p).client.value} else {}
    {
      var oldClient := ReplaceClient(None);
      if oldClient.Some? {
        open := open - {oldClient.value};
      }
    }

    method SetCreds(c: Credentials)
      requires Valid()
      modifies this`p
      ensures Valid() && p == old(p).(creds := c, signedIn := false)
    {
      p := p.(creds := c, signedIn := false);
    }

    method SetProvisioningStatus(st: Status)
      requires Valid()
      modifies this`p, this`marked
      ensures Valid() && p == old(p).(status := st) && (marked <==> st != UNINITIALIZED)
    {
      p := p.(status := st);
      marked := st != UNINITIALIZED;
    }

    /** The answer takes time, and a broken connection gives none. */
    method Receive(conn: Conn, req: Request) returns (resp: Response)
      requires Valid()
      modifies this`p, this`trigger, this`reconnect, this`open, this`callsLeft, this`marked, this`cleared, this`bad
      ensures Interfered(old(p), old(open), old(callsLeft), old(cleared), old(marked), old(bad))
      ensures callsLeft == old(callsLeft) ==> trigger == old(trigger)
      ensures conn !in old(open) ==> resp.NoAnswer?
      ensures bad == old(bad) ==> Good(req, resp)
    {
      Interleave();
      resp := *;
      if conn !in open { resp := NoAnswer; }
      if !Good(req, resp) { bad := bad + 1; }
      Interleave();
    }

    /** client.Do, and what is remembered of it. */
    method Send(conn: Conn, req: Request) returns (resp: Response)
      requires Valid() && Logged()
      requires Allowed(Sent(req, conn, p.status, p.creds.accessToken, Session(sessions, conn), NoAnswer))
      requires req.SignIn? ==> req.token == p.creds.accessToken
      modifies this`p, this`trigger, this`reconnect, this`open, this`callsLeft, this`marked, this`cleared, this`bad,
               this`sent, this`sessions
      ensures Logged() && Interfered(old(p), old(open), old(callsLeft), old(cleared), old(marked), old(bad))
      ensures sent != old(sent) && sent.Entry? && sent.before == old(sent) && In(sent.last, sent)
      ensures sent.last == Sent(req, conn, old(p).status, old(p).creds.accessToken, Session(old(sessions), conn), resp)
      ensures callsLeft == old(callsLeft) ==> trigger == old(trigger)
      ensures conn !in old(open) ==> resp.NoAnswer?
      ensures bad == old(bad) ==> Good(req, resp)
      ensures sessions == if req.SignIn? && Succeeded(resp) then old(sessions)[conn := req.token] else old(sessions)
    {
      ghost var request := Sent(req, conn, p.status, p.creds.accessToken, Session(sessions, conn), NoAnswer);
      resp := Receive(conn, req);
      assert Size(Entry(sent, request.(resp := resp))) > Size(sent);
      sent := Entry(sent, request.(resp := resp));
      if req.SignIn? && Succeeded(resp) {
        sessions := sessions[conn := req.token];
      }
    }

    // ------------------------------------------------------------ signing up and in

    /** setCloudConfiguration to nothing, resetCredentials without a sign-off, trigger. */
    method Cleanup()
      requires Valid()
      modifies this`p, this`trigger, this`reconnect, this`open, this`callsLeft, this`marked, this`cleared, this`bad,
               this`resourcesPublished, this`forceRefreshToken
      ensures Valid() && callsLeft <= old(callsLeft) && p.creds == NO_CREDENTIALS && !p.signedIn && p.client == None
      ensures old(cleared) <= cleared && (callsLeft == old(callsLeft) ==> cleared == old(cleared)) && old(bad) <= bad
      ensures callsLeft == old(callsLeft) ==> Unconfigured(p) && trigger == Triggered(old(trigger), false)
      ensures StatusOk(p) && !resourcesPublished && !forceRefreshToken
    {
      SetCloudConfiguration(NO_CONFIGURATION);
      Interleave();
      ForgetCredentials();
      TriggerRunner(false);
    }

    /** resetCredentials after its sign-off. */
    method ForgetCredentials()
      requires Valid()
      modifies this`p, this`trigger, this`reconnect, this`open, this`callsLeft, this`marked, this`cleared, this`bad,
               this`resourcesPublished, this`forceRefreshToken
      ensures Valid() && callsLeft <= old(callsLeft) && old(cleared) <= cleared && old(bad) <= bad
      ensures callsLeft == old(callsLeft) ==> cleared == old(cleared)
      ensures cleared == old(cleared) && old(p).cfg.url != "" ==> p.cfg.url != ""
      ensures var emptied := old(p).(creds := NO_CREDENTIALS, client := None, signedIn := false);
              Disturbed(emptied, p, callsLeft < old(callsLeft))
      ensures !resourcesPublished && !forceRefreshToken
      ensures callsLeft == old(callsLeft) ==> !reconnect && trigger == old(trigger)
    {
      SetCreds(NO_CREDENTIALS);
      Interleave();
      resourcesPublished := false;
      forceRefreshToken := false;
      reconnect := false;
      Interleave();
      Close();
    }

    /** The request of refreshToken and what follows from its answer. */
    method RefreshTokenRequest(client: Conn) returns (ok: bool)
      requires Valid() && Logged() && p.creds.refreshToken != ""
      modifies this
      ensures Kept(old(p), old(callsLeft), old(cleared), old(bad), ok) && Refreshed(old(p), p, old(sent), sent, ok)
      ensures (ok ==> forceRefreshToken == old(forceRefreshToken)) && dialed == old(dialed)
      ensures ok ==> resourcesPublished == old(resourcesPublished)
      ensures ok && callsLeft == old(callsLeft) ==> SameQueues(old(p), p)
      ensures sent != old(sent) && (bad == old(bad) && ok ==> p.creds.accessToken != "")
      ensures callsLeft == old(callsLeft) ==>
                if Got(old(sent), sent, Unauthorized) then Unconfigured(p) && trigger == Triggered(old(trigger), false)
                else p.cfg == old(p).cfg && p.status == REGISTERING && trigger == old(trigger)
      ensures bad == old(bad) && old(Connected()) ==> ok && Connected()
    {
      SetProvisioningStatus(REGISTERING);
      var resp := Send(client, RefreshToken);
      if resp.NoAnswer? {
        return false;
      }
      if resp.code != Changed {
        if resp.code == Unauthorized {
          Cleanup();
        }
        return false;
      }
      if resp.creds == None {
        return false;
      }
      var answer := resp.creds.value;
      SetCreds(p.creds.(accessToken := answer.accessToken, refreshToken := answer.refreshToken));
      return true;
    }

    method RefreshTokenStep() returns (ok: bool)
      requires Valid() && Logged()
      modifies this
      ensures Kept(old(p), old(callsLeft), old(cleared), old(bad), ok) && Refreshed(old(p), p, old(sent), sent, ok)
      ensures (ok ==> forceRefreshToken == old(forceRefreshToken)) && dialed == old(dialed)
      ensures ok ==> resourcesPublished == old(resourcesPublished)
      ensures ok && callsLeft == old(callsLeft) ==> SameQueues(old(p), p)
      ensures bad == old(bad) && old(Connected()) ==> ok && Connected()
      ensures bad == old(bad) && ok && old(p).creds.refreshToken != "" ==> p.creds.accessToken != ""
      ensures !ok && sent == old(sent) ==> old(p).client == None || bad > old(bad)
    {
      if p.creds.refreshToken == "" {
        return true;
      }
      Interleave();
      var client := p.client;
      if client == None {
        return false;
      }
      ok := RefreshTokenRequest(client.value);
    }

    /** The request of signUp and what follows from its answer. */
    method SignUpRequest(client: Conn) returns (ok: bool)
      requires Valid() && Logged() && p.creds.accessToken == ""
      modifies this
      ensures Kept(old(p), old(callsLeft), old(cleared), old(bad), ok) && SignedUp(old(p), p, old(sent), sent, ok)
      ensures forceRefreshToken == old(forceRefreshToken) && dialed == old(dialed)
      ensures ok ==> resourcesPublished == old(resourcesPublished)
      ensures ok && callsLeft == old(callsLeft) ==> SameQueues(old(p), p)
      ensures sent != old(sent) && (bad == old(bad) && ok ==> p.creds.accessToken != "")
      ensures callsLeft == old(callsLeft) ==>
                p.cfg == old(p).cfg && p.status == REGISTERING && trigger == old(trigger)
      ensures bad == old(bad) && old(Connected()) ==> ok && Connected()
    {
      SetProvisioningStatus(REGISTERING);
      var resp := Send(client, SignUp);
      if resp.NoAnswer? || resp.code != Changed || resp.creds == None {
        return false;
      }
      SetCreds(resp.creds.value);
      return true;
    }

    method SignUpStep() returns (ok: bool)
      requires Valid() && Logged()
      modifies this
      ensures Kept(old(p), old(callsLeft), old(cleared), old(bad), ok) && SignedUp(old(p), p, old(sent), sent, ok)
      ensures forceRefreshToken == old(forceRefreshToken) && dialed == old(dialed)
      ensures ok ==> resourcesPublished == old(resourcesPublished)
      ensures ok && callsLeft == old(callsLeft) ==> SameQueues(old(p), p)
      ensures Undisturbed(old(bad), old(callsLeft)) && old(Connected()) ==>
                (ok <==> old(p).creds.accessToken != "" || CanSignUp(old(p))) && Connected()
      ensures bad == old(bad) && ok ==> p.creds.accessToken != ""
      ensures !ok && sent == old(sent) && callsLeft == old(callsLeft) ==>
                old(p).client == None || bad > old(bad) || !CanSignUp(old(p))
    {
      if p.creds.accessToken != "" {
        return true;
      }
      Interleave();
      if p.cfg.authorizationCode == "" || p.cfg.authorizationProvider == "" {
        return false;
      }
      Interleave();
      var client := p.client;
      if client == None {
        return false;
      }
      ok := SignUpRequest(client.value);
    }

    method AccessTokenRefused(creds: Credentials)
      requires Valid()
      modifies this`p, this`trigger, this`reconnect, this`open, this`callsLeft, this`marked, this`cleared, this`bad,
               this`resourcesPublished, this`forceRefreshToken
      ensures Valid() && callsLeft <= old(callsLeft)
      ensures old(cleared) <= cleared && (callsLeft == old(callsLeft) ==> cleared == old(cleared)) && old(bad) <= bad
      ensures creds.refreshToken == "" && callsLeft == old(callsLeft) ==>
                Unconfigured(p) && trigger == Triggered(old(trigger), false)
      ensures creds.refreshToken != "" ==> trigger == old(trigger)
      ensures creds.refreshToken == "" ==> StatusOk(p) && p.creds == NO_CREDENTIALS && p.client == None
      ensures creds.refreshToken != "" ==> p == old(p) && forceRefreshToken && callsLeft == old(callsLeft)
      ensures creds.refreshToken != "" ==> cleared == old(cleared)
    {
      if creds.refreshToken == "" {
        Cleanup();
      } else {
        forceRefreshToken := true;
      }
    }

    /** The request of signIn and what follows from its answer. */
    method SignInRequest(client: Conn) returns (ok: bool)
      requires Valid() && Logged() && !p.signedIn && (p.client == Some(client) || p.client == None)
      modifies this
      ensures Kept(old(p), old(callsLeft), old(cleared), old(bad), ok)
      ensures SignedIn(old(p), p, old(sent), sent, ok, forceRefreshToken)
      ensures (ok ==> forceRefreshToken == old(forceRefreshToken)) && dialed == old(dialed)
      ensures ok ==> resourcesPublished == old(resourcesPublished)
      ensures ok && callsLeft == old(callsLeft) ==> SameQueues(old(p), p)
      ensures sent != old(sent)
      ensures callsLeft == old(callsLeft) ==>
                if Got(old(sent), sent, Unauthorized) && old(p).creds.refreshToken == ""
                then Unconfigured(p) && trigger == Triggered(old(trigger), false)
                else p.cfg == old(p).cfg && p.status == REGISTERING && trigger == old(trigger)
      ensures !Got(old(sent), sent, Unauthorized) ==> forceRefreshToken == old(forceRefreshToken)
      ensures bad == old(bad) && old(Connected()) ==> ok && Connected()
    {
      var creds := p.creds;
      SetProvisioningStatus(REGISTERING);
      var resp := Send(client, SignIn(creds.accessToken));
      if resp.NoAnswer? {
        return false;
      }
      if resp.code != Changed {
        if resp.code == Unauthorized {
          AccessTokenRefused(creds);
        }
        return false;
      }
      if resp.creds == None {
        return false;
      }
      p := p.(signedIn := true);
      return true;
    }

    method SignInStep() returns (ok: bool)
      requires Valid() && Logged()
      modifies this
      ensures Kept(old(p), old(callsLeft), old(cleared), old(bad), ok)
      ensures SignedIn(old(p), p, old(sent), sent, ok, forceRefreshToken)
      ensures (ok ==> forceRefreshToken == old(forceRefreshToken)) && dialed == old(dialed)
      ensures ok ==> resourcesPublished == old(resourcesPublished)
      ensures ok && callsLeft == old(callsLeft) ==> SameQueues(old(p), p)
      ensures bad == old(bad) && old(Connected()) ==>
                Connected() && (ok <==> old(p).signedIn || old(p).creds.accessToken != "")
      ensures !ok && sent == old(sent) ==> old(p).client == None || old(p).creds.accessToken == ""
      ensures old(p).client == None ==> !ok && sent == old(sent)
    {
      var client := p.client;
      if client == None {
        return false;
      }
      Interleave();
      if p.signedIn {
        return true;
      }
      if p.creds.accessToken == "" {
        return false;
      }
      ok := SignInRequest(client.value);
    }

    // ------------------------------------------------- publishing and unpublishing

    method PopReadyToPublish() returns (ready: set<string>)
      requires Valid()
      modifies this`p
      ensures Valid() && p == old(p).(readyToPublish := None) && ready == Elements(old(p).readyToPublish)
    {
      ready := Elements(p.readyToPublish);
      p := p.(readyToPublish := None);
    }

    /** popReadyToPublishResources and getLinksToPublish, then one request. `links` are
        the hrefs getLinks would give. */
    method PublishStep() returns (ok: bool, ghost links: set<string>)
      requires Valid() && Logged() && (p.client == None || p.signedIn)
      modifies this`p, this`trigger, this`reconnect, this`open, this`callsLeft, this`marked, this`cleared, this`bad,
               this`sent, this`sessions, this`resourcesPublished
      ensures Kept(old(p), old(callsLeft), old(cleared), old(bad), ok)
      ensures p.creds == old(p).creds && (p.client == None || p.signedIn)
      ensures callsLeft == old(callsLeft) ==> p.readyToPublish == None && p.readyToUnpublish == old(p).readyToUnpublish
      ensures Published(Elements(old(p).readyToPublish), links, old(resourcesPublished), resourcesPublished,
                        old(sent), sent, ok)
      ensures sent != old(sent) ==>
                forall h :: h in sent.last.req.hrefs <==>
                            h in links && (!old(resourcesPublished) || h in Elements(old(p).readyToPublish))
      ensures ok && sent == old(sent) ==>
                forall h | h in links :: old(resourcesPublished) && h !in Elements(old(p).readyToPublish)
      ensures bad == old(bad) && old(Connected()) ==> ok && Connected()
    {
      var ready := PopReadyToPublish();
      var all: set<string> := *;
      links := all;
      var chosen := ToPublish(ready, all, resourcesPublished);
      if chosen == {} {
        assert forall h | h in links :: h !in ToPublish(ready, links, resourcesPublished);
        return true, links;
      }
      Interleave();
      var client := p.client;
      if client == None {
        return false, links;
      }
      var resp := Send(client.value, Publish(chosen));
      if !Succeeded(resp) {
        return false, links;
      }
      resourcesPublished := true;
      return true, links;
    }

    /** popReadyToUnpublishResources: any `count` of them, or all. */
    method PopReadyToUnpublish(count: nat) returns (batch: seq<string>)
      requires Valid()
      modifies this`p
      ensures Valid() && p == old(p).(readyToUnpublish := p.readyToUnpublish)
      ensures Popped(Elements(old(p).readyToUnpublish), Elements(p.readyToUnpublish), batch, count)
    {
      var rest;
      batch, rest := Take(Elements(p.readyToUnpublish), count);
      p := p.(readyToUnpublish := if rest == {} then None else Some(rest));
    }

    /** One round of unpublishResources: nothing left, an error, or `more`. */
    method UnpublishRound() returns (ok: bool, more: bool, ghost batch: seq<string>)
      requires Valid() && Logged() && (p.client == None || p.signedIn)
      modifies this`p, this`trigger, this`reconnect, this`open, this`callsLeft, this`marked, this`cleared, this`bad,
               this`sent, this`sessions
      ensures Kept(old(p), old(callsLeft), old(cleared), old(bad), ok)
      ensures p.creds == old(p).creds && (p.client == None || p.signedIn)
      ensures callsLeft == old(callsLeft) ==>
                Popped(Elements(old(p).readyToUnpublish), Elements(p.readyToUnpublish), batch, 10) &&
                p.readyToPublish == old(p).readyToPublish &&
                |Elements(old(p).readyToUnpublish)| == |Elements(p.readyToUnpublish)| + |batch|
      ensures AtMostOne(old(sent), sent, Unpublish(batch)) && (more ==> ok)
      ensures ok ==> (more <==> batch != []) && (more <==> Got(old(sent), sent, Deleted))
      ensures ok && !more ==> callsLeft == old(callsLeft) && sent == old(sent)
      ensures bad == old(bad) && old(Connected()) ==> ok && Connected()
    {
      // at most 10: a longer query would not fit
      var popped := PopReadyToUnpublish(10);
      batch := popped;
      PoppedIsFewer(Elements(old(p).readyToUnpublish), Elements(p.readyToUnpublish), batch, 10);
      if popped == [] {
        return true, false, batch;
      }
      Interleave();
      var client := p.client;
      if client == None {
        return false, false, batch;
      }
      var resp := Send(client.value, Unpublish(popped));
      ok := resp.Answer? && resp.code == Deleted;
      return ok, ok, batch;
    }

    method UnpublishStep() returns (ok: bool)
      requires Valid() && Logged() && (p.client == None || p.signedIn)
      modifies this`p, this`trigger, this`reconnect, this`open, this`callsLeft, this`marked, this`cleared, this`bad,
               this`sent, this`sessions
      ensures Kept(old(p), old(callsLeft), old(cleared), old(bad), ok)
      ensures p.creds == old(p).creds && (p.client == None || p.signedIn)
      ensures Ranked(old(sent), sent, 4, 4)
      ensures ok && callsLeft == old(callsLeft) ==>
                Elements(p.readyToUnpublish) == {} &&
                Batched(Batches(old(sent), sent), Elements(old(p).readyToUnpublish))
      ensures callsLeft == old(callsLeft) ==> p.readyToPublish == old(p).readyToPublish
      ensures bad == old(bad) && old(Connected()) ==> ok && Connected()
    {
      ok := true;
      ghost var hrefs := Elements(p.readyToUnpublish);
      var more := true;
      while more
        invariant Kept(old(p), old(callsLeft), old(cleared), old(bad), ok)
        invariant p.creds == old(p).creds && (p.client == None || p.signedIn) && (more ==> ok)
        invariant Ranked(old(sent), sent, 4, 4)
        invariant callsLeft == old(callsLeft) ==> p.readyToPublish == old(p).readyToPublish
        invariant bad == old(bad) && old(Connected()) ==> ok && Connected()
        invariant ok && callsLeft == old(callsLeft) ==>
                    Partial(Batches(old(sent), sent), Elements(p.readyToUnpublish), hrefs) &&
                    (more || Elements(p.readyToUnpublish) == {})
        decreases callsLeft, |Elements(p.readyToUnpublish)|, more
      {
        ghost var before, sentBefore := Elements(p.readyToUnpublish), sent;
        ghost var batch;
        ok, more, batch := UnpublishRound();
        RankedAppend(old(sent), sentBefore, sent, 4, 4, 4);
        if ok && callsLeft == old(callsLeft) {
          RoundKeepsPartial(old(sent), sentBefore, sent, before, Elements(p.readyToUnpublish), batch, hrefs);
        }
      }
      if ok && callsLeft == old(callsLeft) {
        PartialIsBatched(Batches(old(sent), sent), hrefs);
      }
    }

    // ------------------------------------------------------------------ connecting

    /** dial: a live connection is kept; otherwise a new one, which is not signed in,
        takes its place, or none. */
    method Dial() returns (ok: bool)
      requires Valid() && Logged()
      modifies this`p, this`trigger, this`reconnect, this`open, this`callsLeft, this`marked, this`cleared, this`bad,
               this`dialed
      ensures Kept(old(p), old(callsLeft), old(cleared), old(bad), true)
      ensures p.creds == old(p).creds && old(dialed) <= dialed <= old(dialed) + 1
      ensures callsLeft == old(callsLeft) ==> p.cfg == old(p).cfg && SameQueues(old(p), p)
      ensures old(Connected()) ==> ok && p == old(p) && dialed == old(dialed)
      ensures ok && dialed == old(dialed) ==> p == old(p) && p.client.Some? && p.client.value in open
      ensures ok && dialed > old(dialed) ==> p.client == Some(dialed) && !p.signedIn
      ensures !ok ==> p.client == None && !p.signedIn
      ensures bad == old(bad) ==> ok && Connected()
    {
      if p.client.Some? && p.client.value in open {
        return true;
      }
      Interleave();
      Close();
      ok := DialAnew();
    }

    /** The rest of dial, when there is no connection to keep. */
    method DialAnew() returns (ok: bool)
      requires Valid() && Logged() && p.client == None && !p.signedIn
      modifies this`p, this`trigger, this`reconnect, this`open, this`callsLeft, this`marked, this`cleared, this`bad,
               this`dialed
      ensures Kept(old(p), old(callsLeft), old(cleared), old(bad), true)
      ensures p.creds == old(p).creds && old(dialed) <= dialed
      ensures callsLeft == old(callsLeft) ==> p.cfg == old(p).cfg && SameQueues(old(p), p)
      ensures if ok then dialed == old(dialed) + 1 && p.client == Some(dialed) && !p.signedIn
              else dialed == old(dialed) && p.client == None && !p.signedIn
      ensures bad == old(bad) ==> ok && Connected()
    {
      Interleave();
      // the certificate pool, the address or the peer may be unusable
      var fails: bool := *;
      if fails {
        bad := bad + 1;
        return false;
      }
      dialed := dialed + 1;
      open := open + {dialed};
      Interleave();
      var _ := ReplaceClient(Some(dialed));
      return true;
    }

    /** signUp, then signIn, unless there is an error. */
    method SignUpAndIn() returns (ok: bool)
      requires Valid() && Logged()
      modifies this
      ensures Kept(old(p), old(callsLeft), old(cleared), old(bad), ok) && Ranked(old(sent), sent, 1, 2)
      ensures ok ==> (p.client == None || p.signedIn) && forceRefreshToken == old(forceRefreshToken)
      ensures ok ==> resourcesPublished == old(resourcesPublished)
      ensures ok && callsLeft == old(callsLeft) ==> SameQueues(old(p), p)
      ensures Undisturbed(old(bad), old(callsLeft)) && old(Connected()) ==>
                Connected() && (ok <==> CanSignIn(old(p), false))
    {
      ok := SignUpStep();
      if !ok {
        return false;
      }
      Interleave();
      ghost var signedUp := sent;
      ok := SignInStep();
      RankedAppend(old(sent), signedUp, sent, 1, 1, 2);
    }

    /** The first functions connect runs, until one returns an error. */
    method SignSteps(refresh: bool) returns (ok: bool)
      requires Valid() && Logged()
      modifies this
      ensures Kept(old(p), old(callsLeft), old(cleared), old(bad), ok) && Ranked(old(sent), sent, 0, 2)
      ensures ok ==> (p.client == None || p.signedIn) && forceRefreshToken == old(forceRefreshToken)
      ensures ok ==> resourcesPublished == old(resourcesPublished)
      ensures ok && callsLeft == old(callsLeft) ==> SameQueues(old(p), p)
      ensures ok ==> (Refreshes(old(sent), sent) <==> refresh && old(p).creds.refreshToken != "")
      ensures Undisturbed(old(bad), old(callsLeft)) && old(Connected()) ==>
                Connected() && (ok <==> CanSignIn(old(p), refresh))
    {
      if refresh {
        ok := RefreshTokenStep();
        if !ok {
          return false;
        }
        Interleave();
      }
      ghost var refreshed := sent;
      ok := SignUpAndIn();
      RankedAppend(old(sent), refreshed, sent, 0, 1, 2);
      RefreshesFirst(old(sent), refreshed, sent, 1, 2);
    }

    /** publishResources, then unpublishResources, unless there is an error. */
    method PublishSteps() returns (ok: bool, ghost round: Round)
      requires Valid() && Logged() && (p.client == None || p.signedIn)
      modifies this`p, this`trigger, this`reconnect, this`open, this`callsLeft, this`marked, this`cleared, this`bad,
               this`sent, this`sessions, this`resourcesPublished
      ensures Kept(old(p), old(callsLeft), old(cleared), old(bad), ok)
      ensures (p.client == None || p.signedIn) && Ranked(old(sent), sent, 3, 4)
      ensures ok && callsLeft == old(callsLeft) ==>
                round.signed == old(sent) && NothingWaits(p) &&
                Delivers(round, Elements(old(p).readyToPublish), Elements(old(p).readyToUnpublish),
                         old(resourcesPublished), resourcesPublished, old(sent), sent)
      ensures bad == old(bad) && old(Connected()) ==> ok && Connected()
    {
      ghost var links;
      ok, links := PublishStep();
      round := Round(links, old(sent), sent);
      if !ok {
        return false, round;
      }
      Interleave();
      ghost var published := sent;
      ok := UnpublishStep();
      RankedAppend(old(sent), published, sent, 3, 4, 4);
    }

    /** connect: the requests in order, with a refresh exactly when one is due and
        possible; without an error the client is gone or signed in, and after an error
        there is none. */
    method Connect() returns (ok: bool, ghost expiring: bool, ghost round: Round)
      requires Valid() && Logged()
      modifies this
      ensures Kept(old(p), old(callsLeft), old(cleared), old(bad), ok)
      ensures Ranked(old(sent), sent, 0, 4)
      ensures ok ==> (p.client == None || p.signedIn) && !forceRefreshToken
      ensures ok ==> (Refreshes(old(sent), sent) <==>
                      (expiring || old(forceRefreshToken)) && old(p).creds.refreshToken != "")
      ensures !ok ==> p.client == None && !p.signedIn
      ensures ok && callsLeft == old(callsLeft) ==>
                NothingWaits(p) &&
                Delivers(round, Elements(old(p).readyToPublish), Elements(old(p).readyToUnpublish),
                         old(resourcesPublished), resourcesPublished, old(sent), sent)
      ensures Undisturbed(old(bad), old(callsLeft)) ==>
                (ok <==> CanSignIn(old(p), expiring || old(forceRefreshToken))) && (ok ==> p.signedIn && Connected())
    {
      // isCredsExpiring depends on the clock
      var due: bool := *;
      expiring := due;
      var refresh := due || forceRefreshToken;
      if refresh {
        forceRefreshToken := false;
      }
      ok, round := DialAndSteps(refresh);
    }

    method DialAndSteps(refresh: bool) returns (ok: bool, ghost round: Round)
      requires Valid() && Logged()
      modifies this
      ensures Kept(old(p), old(callsLeft), old(cleared), old(bad), ok)
      ensures Ranked(old(sent), sent, 0, 4)
      ensures ok ==> (p.client == None || p.signedIn) && forceRefreshToken == old(forceRefreshToken)
      ensures ok ==> (Refreshes(old(sent), sent) <==> refresh && old(p).creds.refreshToken != "")
      ensures !ok ==> p.client == None && !p.signedIn
      ensures ok && callsLeft == old(callsLeft) ==>
                NothingWaits(p) &&
                Delivers(round, Elements(old(p).readyToPublish), Elements(old(p).readyToUnpublish),
                         old(resourcesPublished), resourcesPublished, old(sent), sent)
      ensures Undisturbed(old(bad), old(callsLeft)) ==>
                (ok <==> CanSignIn(old(p), refresh)) && (ok ==> p.signedIn && Connected())
    {
      round := Round({}, sent, sent);
      ok := Dial();
      if !ok {
        return false, round;
      }
      Interleave();
      ok, round := StepsOrClose(refresh);
    }

    method Steps(refresh: bool) returns (ok: bool, ghost round: Round)
      requires Valid() && Logged()
      modifies this
      ensures Kept(old(p), old(callsLeft), old(cleared), old(bad), ok) && Ranked(old(sent), sent, 0, 4)
      ensures ok ==> (p.client == None || p.signedIn) && forceRefreshToken == old(forceRefreshToken)
      ensures ok ==> (Refreshes(old(sent), sent) <==> refresh && old(p).creds.refreshToken != "")
      ensures ok && callsLeft == old(callsLeft) ==>
                NothingWaits(p) &&
                Delivers(round, Elements(old(p).readyToPublish), Elements(old(p).readyToUnpublish),
                         old(resourcesPublished), resourcesPublished, old(sent), sent)
      ensures Undisturbed(old(bad), old(callsLeft)) && old(Connected()) ==>
                (ok <==> CanSignIn(old(p), refresh)) && (ok ==> p.signedIn && Connected())
    {
      round := Round({}, sent, sent);
      ok := SignSteps(refresh);
      if !ok {
        return false, round;
      }
      Interleave();
      ghost var signedIn := sent;
      ok, round := PublishSteps();
      RankedAppend(old(sent), signedIn, sent, 0, 3, 4);
      RankedExtends(old(sent), signedIn, 0, 2);
      RefreshesBefore(old(sent), signedIn, sent, 3, 4);
    }

    /** After an error the client is closed. */
    method StepsOrClose(refresh: bool) returns (ok: bool, ghost round: Round)
      requires Valid() && Logged()
      modifies this
      ensures Kept(old(p), old(callsLeft), old(cleared), old(bad), ok)
      ensures Ranked(old(sent), sent, 0, 4)
      ensures ok ==> (p.client == None || p.signedIn) && forceRefreshToken == old(forceRefreshToken)
      ensures ok ==> (Refreshes(old(sent), sent) <==> refresh && old(p).creds.refreshToken != "")
      ensures !ok ==> p.client == None && !p.signedIn
      ensures ok && callsLeft == old(callsLeft) ==>
                NothingWaits(p) &&
                Delivers(round, Elements(old(p).readyToPublish), Elements(old(p).readyToUnpublish),
                         old(resourcesPublished), resourcesPublished, old(sent), sent)
      ensures Undisturbed(old(bad), old(callsLeft)) && old(Connected()) ==>
                (ok <==> CanSignIn(old(p), refresh)) && (ok ==> p.signedIn && Connected())
    {
      ok, round := Steps(refresh);
      if !ok {
        Interleave();
        Close();
      }
    }

    // ---------------------------------------------------------- signing off and resetting

    /** signOff: whatever the answer is, the status ends as UNINITIALIZED. */
    method SignOffStep() returns (ok: bool)
      requires Valid() && Logged()
      modifies this`p, this`trigger, this`reconnect, this`open, this`callsLeft, this`marked, this`cleared, this`bad,
               this`sent, this`sessions
      ensures Handled(old(p), old(callsLeft), old(cleared)) && AtMostOne(old(sent), sent, SignOff)
      ensures p.creds == old(p).creds && (sent != old(sent) ==> p.status == UNINITIALIZED)
      ensures callsLeft == old(callsLeft) ==> p.cfg == old(p).cfg
      ensures ok <==> Got(old(sent), sent, Deleted)
      ensures bad == old(bad) && old(Connected()) ==> ok
      ensures sent != old(sent) ==> sent.last.status == DEREGISTERING
      ensures old(bad) <= bad && (sent == old(sent) ==> old(p).client == None || bad > old(bad))
    {
      var client := p.client;
      if client == None {
        return false;
      }
      // the context may have ended
      var fails: bool := *;
      if fails {
        bad := bad + 1;
        return false;
      }
      Interleave();
      SetProvisioningStatus(DEREGISTERING);
      var resp := Send(client.value, SignOff);
      SetProvisioningStatus(UNINITIALIZED);
      return resp.Answer? && resp.code == Deleted;
    }

    /** resetCredentials with a sign-off. */
    method ResetCredentials()
      requires Valid() && Logged()
      modifies this
      ensures Handled(old(p), old(callsLeft), old(cleared)) && AtMostOne(old(sent), sent, SignOff)
      ensures p.creds == NO_CREDENTIALS && p.client == None && !p.signedIn && !resourcesPublished && !forceRefreshToken
      ensures callsLeft == old(callsLeft) ==> p.cfg == old(p).cfg && !reconnect
      ensures old(bad) <= bad && (sent == old(sent) ==> old(p).client == None || bad > old(bad))
    {
      var _ := SignOffStep();
      Interleave();
      ForgetCredentials();
    }

    // ------------------------------------------------------------------ the handlers

    /** What a handler keeps. Unless a call from elsewhere clears the URL during the
        handler, this includes that no cloud URL means UNINITIALIZED. */
    ghost predicate Handled(p0: Private, calls0: nat, cleared0: nat)
      reads this
    {
      && Valid() && Logged()
      && callsLeft <= calls0 && cleared0 <= cleared && (callsLeft == calls0 ==> cleared == cleared0)
      && (cleared == cleared0 && StatusOk(p0) ==> StatusOk(p))
    }

    method ResetPublishing()
      requires Valid()
      modifies this`p
      ensures Valid() && p == old(p).(readyToPublish := None, readyToUnpublish := None)
    {
      p := p.(readyToPublish := None, readyToUnpublish := None);
    }

    /** Registered, over an open connection that is signed in with the current token. */
    ghost predicate Online()
      reads this`p, this`open
    {
      p.status == REGISTERED && p.signedIn && Connected()
    }

    /** connect and what follows. After it the status is right exactly if there is a URL,
        or if connect failed and the status was not set after the configuration. */
    method ConnectAndRegister() returns (ok: bool, ghost round: Round)
      requires Valid() && Logged()
      modifies this
      ensures Kept(old(p), old(callsLeft), old(cleared), old(bad), false) && Settled(p) && Ranked(old(sent), sent, 0, 4)
      ensures if ok then p.status == REGISTERED && marked else p.client == None
      ensures StatusOk(p) <==> p.cfg.url != "" || (!ok && !marked)
      ensures ok && callsLeft == old(callsLeft) ==>
                NothingWaits(p) &&
                Delivers(round, Elements(old(p).readyToPublish), Elements(old(p).readyToUnpublish),
                         old(resourcesPublished), resourcesPublished, old(sent), sent)
      ensures Undisturbed(old(bad), old(callsLeft)) && CanSignIn(old(p), false) ==> ok && Online()
    {
      ghost var expiring;
      ok, expiring, round := Connect();
      Interleave();
      if ok {
        SetProvisioningStatus(REGISTERED);
      }
    }

    /** The same, when the Unregister of another goroutine falls before the last
        statement: whenever connect succeeds, the manager ends REGISTERED without a URL. */
    method UnregisterBeforeTheLastStatement() returns (ok: bool)
      requires Valid() && Logged()
      modifies this
      ensures ok ==> p.status == REGISTERED && p.cfg.url == "" && !StatusOk(p)
      ensures !ok ==> StatusOk(p)
    {
      ghost var expiring;
      ghost var round;
      ok, expiring, round := Connect();
      Unregister();
      if ok {
        SetProvisioningStatus(REGISTERED);
      }
    }

    /** The part of handleTrigger after the reset. */
    method Proceed() returns (ghost round: Round)
      requires Valid() && Logged() && RegisteredOk(p)
      modifies this
      ensures Handled(old(p), old(callsLeft), old(cleared)) && RegisteredOk(p) && Ranked(old(sent), sent, 0, 4)
      ensures callsLeft == old(callsLeft) && old(reconnect) ==>
                p == old(p).(client := None, signedIn := false) && sent == old(sent) && !reconnect
      ensures callsLeft == old(callsLeft) && !old(reconnect) && old(p).cfg.url != "" ==> Settled(p)
      ensures callsLeft == old(callsLeft) && !old(reconnect) && old(p).cfg.url == "" ==>
                p == old(p).(readyToPublish := None, readyToUnpublish := None,
                             client := p.client, signedIn := p.signedIn) &&
                (old(p).client == None ==> p.client == None) && (!old(p).signedIn ==> !p.signedIn) && sent == old(sent)
      ensures old(bad) <= bad
      ensures Undisturbed(old(bad), old(callsLeft)) ==>
                !old(reconnect) && old(p).cfg.url != "" && CanSignIn(old(p), false) ==>
                  Online() && NothingWaits(p) &&
                  Delivers(round, Remembered(old(p).readyToPublish, old(p).signedIn),
                           Remembered(old(p).readyToUnpublish, old(p).signedIn),
                           old(resourcesPublished), resourcesPublished, old(sent), sent)
    {
      round := Round({}, sent, sent);
      var reconnecting := reconnect;
      reconnect := false;
      if reconnecting {
        Interleave();
        Close();
        return;
      }
      Interleave();
      round := Advance();
    }

    /** The part of handleTrigger after the reset and the reconnect. */
    method Advance() returns (ghost round: Round)
      requires Valid() && Logged() && RegisteredOk(p)
      modifies this
      ensures Handled(old(p), old(callsLeft), old(cleared)) && RegisteredOk(p) && Ranked(old(sent), sent, 0, 4)
      ensures callsLeft == old(callsLeft) && old(p).cfg.url != "" ==> Settled(p)
      ensures callsLeft == old(callsLeft) && old(p).cfg.url == "" ==>
                p == old(p).(readyToPublish := None, readyToUnpublish := None,
                             client := p.client, signedIn := p.signedIn) &&
                (old(p).client == None ==> p.client == None) && (!old(p).signedIn ==> !p.signedIn) && sent == old(sent)
      ensures old(bad) <= bad
      ensures Undisturbed(old(bad), old(callsLeft)) && old(p).cfg.url != "" && CanSignIn(old(p), false) ==>
                Online() && NothingWaits(p) &&
                Delivers(round, Remembered(old(p).readyToPublish, old(p).signedIn),
                         Remembered(old(p).readyToUnpublish, old(p).signedIn),
                         old(resourcesPublished), resourcesPublished, old(sent), sent)
    {
      round := Round({}, sent, sent);
      if p.cfg.url == "" {
        Interleave();
        ResetPublishing();
        return;
      }
      Interleave();
      round := Register();
    }

    /** The part of handleTrigger with a cloud URL. */
    method Register() returns (ghost round: Round)
      requires Valid() && Logged()
      modifies this
      ensures Kept(old(p), old(callsLeft), old(cleared), old(bad), false) && Settled(p) && Ranked(old(sent), sent, 0, 4)
      ensures Undisturbed(old(bad), old(callsLeft)) && CanSignIn(old(p), false) ==>
                Online() && NothingWaits(p) &&
                Delivers(round, Remembered(old(p).readyToPublish, old(p).signedIn),
                         Remembered(old(p).readyToUnpublish, old(p).signedIn),
                         old(resourcesPublished), resourcesPublished, old(sent), sent)
    {
      if !p.signedIn {
        Interleave();
        ResetPublishing();
      }
      Interleave();
      var ok;
      ok, round := ConnectAndRegister();
    }

    /** handleTrigger: a sign-off goes out only first and only for a reset; a reset without
        a cloud URL clears everything; with one, an undisturbed handler ends signed in and
        REGISTERED, or without a client. */
    method HandleTrigger(wantToReset: bool) returns (ghost reset: Log, ghost round: Round)
      requires Valid() && Logged() && RegisteredOk(p)
      modifies this
      ensures Handled(old(p), old(callsLeft), old(cleared)) && RegisteredOk(p)
      ensures AtMostOne(old(sent), reset, SignOff) && (!wantToReset ==> reset == old(sent)) && Ranked(reset, sent, 0, 4)
      ensures wantToReset && reset == old(sent) ==> old(p).client == None || bad > old(bad)
      ensures wantToReset && callsLeft == old(callsLeft) && old(p).cfg.url == "" && StatusOk(old(p)) ==>
                p == Private(old(p).cfg, UNINITIALIZED, None, None, NO_CREDENTIALS, None, false) && sent == reset
      ensures callsLeft == old(callsLeft) && (wantToReset || !old(reconnect)) && old(p).cfg.url != "" ==> Settled(p)
      ensures Undisturbed(old(bad), old(callsLeft)) && old(p).cfg.url != "" ==>
                (if wantToReset then CanSignUp(old(p)) else !old(reconnect) && CanSignIn(old(p), false)) ==>
                  var kept := old(p).signedIn && !wantToReset;
                  Online() && NothingWaits(p) &&
                  Delivers(round, Remembered(old(p).readyToPublish, kept), Remembered(old(p).readyToUnpublish, kept),
                           old(resourcesPublished) && !wantToReset, resourcesPublished, reset, sent)
    {
      if wantToReset {
        ResetCredentials();
        Interleave();
      }
      reset := sent;
      round := Proceed();
    }

    method HandleTimer() returns (ghost round: Round)
      requires Valid() && Logged() && RegisteredOk(p)
      modifies this
      ensures Handled(old(p), old(callsLeft), old(cleared)) && RegisteredOk(p)
      ensures if old(p).cfg.url == "" then p == old(p) && sent == old(sent) else Settled(p)
      ensures Ranked(old(sent), sent, 0, 4)
      ensures Undisturbed(old(bad), old(callsLeft)) && old(p).cfg.url != "" && CanSignIn(old(p), false) ==>
                Online() && NothingWaits(p) &&
                Delivers(round, Elements(old(p).readyToPublish), Elements(old(p).readyToUnpublish),
                         old(resourcesPublished), resourcesPublished, old(sent), sent)
    {
      round := Round({}, sent, sent);
      if p.cfg.url == "" {
        return;
      }
      Interleave();
      var ok;
      ok, round := ConnectAndRegister();
    }

    /** What is made ready while the manager is not signed in: when all resources have been
        published before, it is dropped, and a handler that signs in does not publish it. */
    method MadeReadyOffline(href: string) returns (ghost round: Round)
      requires Valid() && Logged() && RegisteredOk(p) && p.cfg.url != "" && CanSignIn(p, false)
      requires p.client == None && !p.signedIn && resourcesPublished && !reconnect && trigger == []
      modifies this
      ensures Undisturbed(old(bad), old(callsLeft)) ==> Online() && NothingWaits(p) && !Announces(round, href)
    {
      PublishResources([href]);
      trigger := trigger[1..];
      ghost var reset;
      reset, round := HandleTrigger(false);
      if Undisturbed(old(bad), old(callsLeft)) {
        AnnouncesExactly(round, {}, {}, true, resourcesPublished, old(sent), sent, href);
      }
    }

    /** Any run of the event loop: handlers one after the other, with breaking
        connections and calls from elsewhere at any time. Every publishing request went
        out on a client signed in with the current token; REGISTERED with a client
        means signed in. Without a cloud URL the status is UNINITIALIZED exactly if none
        was set after the configuration, and always if no call from elsewhere has
        cleared the URL during a handler. */
    method AnyRun(steps: nat) returns (ghost undisturbed: bool)
      requires Valid() && Logged() && StatusOk(p) && RegisteredOk(p)
      modifies this
      ensures Valid() && Logged() && RegisteredOk(p)
      ensures StatusOk(p) <==> p.cfg.url != "" || !marked
      ensures (undisturbed ==> StatusOk(p)) && (cleared == old(cleared) ==> undisturbed)
    {
      undisturbed := true;
      for i := 0 to steps
        invariant Valid() && Logged() && RegisteredOk(p) && (undisturbed ==> StatusOk(p))
        invariant old(cleared) <= cleared && (cleared == old(cleared) ==> undisturbed)
      {
        Interleave();
        var which: nat := *;
        ghost var clearedBefore := cleared;
        if trigger != [] && which == 0 {
          var wantToReset := trigger[0];
          trigger := trigger[1..];
          var _, _ := HandleTrigger(wantToReset);
        } else if which == 1 {
          var _ := HandleTimer();
        } else if which == 2 {
          Close();
        }
        undisturbed := undisturbed && cleared == clearedBefore;
      }
    }
  }
}
