/**
 Clients and server together: the single-flight refresh of the browser client
 (frontend/src/auth/api-middleware.ts) against the server's rotation with reuse
 detection. Each client is one browser tab with its own token store.
 */
module SessionProtocol {
  import opened Common
  import opened RefreshTokens

  type ClientId = nat
  type LoginId = nat

  /** `refreshPromise`: not set; request on its way; answer on its way; resolved but not cleared yet. */
  datatype Flight =
    | Idle
    | Sent(token: Token)
    | Answered(token: Token, answer: Result<Token, RefreshError>)
    | Settling

  /** `spent`: the stored token was already sent, by a page that was reloaded since. */
  datatype Client = Client(refreshToken: Option<Token>, flight: Flight, spent: bool)

  type OrphanId = nat

  /**
   `orphans` are refresh requests of pages that were reloaded, still on their way; `logins` are answers
   to login requests under way; `presented` is every token ever sent for refresh.
   */
  datatype World = World(
    store: Store,
    clients: map<ClientId, Client>,
    orphans: map<OrphanId, Token>,
    logins: map<LoginId, (ClientId, Token)>,
    presented: seq<Token>,
    reuseDetected: bool)

  datatype Step =
    | RequestNeedsToken(c: ClientId)
    | ServeRefresh(c: ClientId, minted: Token, now: Instant, days: int)
    | ReceiveAnswer(c: ClientId)
    | ClearPromise(c: ClientId)
    | ServeLogin(c: ClientId, login: LoginId, userId: UserId, mfa: bool, expiresAt: Instant, minted: Token)
    | ReceiveLogin(login: LoginId)
    | LoseLogin(login: LoginId)
    | ClearTokens(c: ClientId)
    | Reload(c: ClientId, o: OrphanId)
    | ServeOrphan(o: OrphanId, minted: Token, now: Instant, days: int)
    | LoseOrphan(o: OrphanId)

  function Put(w: World, c: ClientId, client: Client): World {
    w.(clients := w.clients[c := client])
  }

  /** A request whose access token is missing or about to expire. */
  function EnsureFreshAccessToken(w: World, c: ClientId): World
    requires c in w.clients
  {
    var client := w.clients[c];
    if client.refreshToken.None? then w
    else if client.flight.Idle? then
      Put(w, c, client.(flight := Sent(client.refreshToken.value))).(presented := w.presented
          + [client.refreshToken.value])
    else w
  }

  /** Is the stored token the one that is out for refresh? */
  predicate StoredIsInFlight(client: Client) {
    (client.flight.Sent? || client.flight.Answered?) && client.refreshToken == Some(client.flight.token)
  }

  /** The stored token survives a reload; the pending promise does not, though its request may still be served. */
  function Reloaded(w: World, c: ClientId, o: OrphanId): World
    requires c in w.clients
  {
    var client := w.clients[c];
    Put(w, c, client.(flight := Idle, spent := client.spent || StoredIsInFlight(client)))
      .(orphans := if client.flight.Sent? then w.orphans[o := client.flight.token] else w.orphans)
  }

  function RefreshServed(w: World, c: ClientId, minted: Token, now: Instant, days: int): World
    requires c in w.clients && w.clients[c].flight.Sent?
  {
    var token := w.clients[c].flight.token;
    var (store, answer) := Refreshed(w.store, token, minted, now, days);
    Put(w, c, w.clients[c].(flight := Answered(token, answer)))
      .(store := store, reuseDetected := w.reuseDetected || answer == Err(ReuseDetected))
  }

  function OrphanServed(w: World, o: OrphanId, minted: Token, now: Instant, days: int): World
    requires o in w.orphans
  {
    var (store, answer) := Refreshed(w.store, w.orphans[o], minted, now, days);
    w.(store := store, orphans := w.orphans - {o}, reuseDetected := w.reuseDetected || answer == Err(ReuseDetected))
  }

  ghost predicate Next(w: World, step: Step, w': World) {
    match step
    case RequestNeedsToken(c) => c in w.clients && w' == EnsureFreshAccessToken(w, c)
    case ServeRefresh(c, minted, now, days) =>
      c in w.clients && w.clients[c].flight.Sent? && minted !in w.store && w' == RefreshServed(w, c, minted, now, days)
    case ReceiveAnswer(c) =>
      && c in w.clients && w.clients[c].flight.Answered?
      && var answer := w.clients[c].flight.answer;
      && w' == Put(w, c, Client(if answer.Ok? then Some(answer.value) else None, Settling, false))
    case ClearPromise(c) =>
      c in w.clients && w.clients[c].flight.Settling? && w' == Put(w, c, w.clients[c].(flight := Idle))
    case ServeLogin(c, login, userId, mfa, expiresAt, minted) =>
      && c in w.clients && login !in w.logins && minted !in w.store
      && w' == w.(store := Issued(w.store, userId, mfa, expiresAt, minted), logins := w.logins[login := (c, minted)])
    case ReceiveLogin(login) =>
      && login in w.logins && w.logins[login].0 in w.clients
      && var (c, token) := w.logins[login];
      && w' == Put(w, c, w.clients[c].(refreshToken := Some(token), spent := false)).(logins := w.logins - {login})
    case LoseLogin(login) => w' == w.(logins := w.logins - {login})
    case ClearTokens(c) => c in w.clients && w' == Put(w, c, w.clients[c].(refreshToken := None, spent := false))
    case Reload(c, o) => c in w.clients && o !in w.orphans && w' == Reloaded(w, c, o)
    case ServeOrphan(o, minted, now, days) =>
      o in w.orphans && minted !in w.store && w' == OrphanServed(w, o, minted, now, days)
    case LoseOrphan(o) => w' == w.(orphans := w.orphans - {o})
  }

  // ---- Who can still present a token ----

  datatype Holder =
    | Stored(c: ClientId)
    | Underway(c: ClientId)
    | Minted(c: ClientId)
    | LoggingIn(login: LoginId)
    | Orphaned(o: OrphanId)

  predicate IsOut(h: Holder) {
    h.Underway? || h.Orphaned?
  }

  function Held(w: World, h: Holder): Option<Token> {
    match h
    case Stored(c) =>
      if c !in w.clients then None
      else
        if w.clients[c].spent || StoredIsInFlight(w.clients[c]) then None else w.clients[c].refreshToken
    case Underway(c) => if c in w.clients && w.clients[c].flight.Sent? then Some(w.clients[c].flight.token) else None
    case Minted(c) =>
      if c in w.clients && w.clients[c].flight.Answered? && w.clients[c].flight.answer.Ok?
      then Some(w.clients[c].flight.answer.value) else None
    case LoggingIn(login) => if login in w.logins then Some(w.logins[login].1) else None
    case Orphaned(o) => if o in w.orphans then Some(w.orphans[o]) else None
  }

  ghost predicate HolderInv(w: World, h: Holder) {
    Held(w, h).Some? ==>
      var t := Held(w, h).value;
      t in w.store && !w.store[t].revoked && (IsOut(h) <==> t in w.presented)
  }

  /**
   A spent token was presented, and its client is not refreshing; so was the token whose answer is on
   its way back, and an answer that brings a new one means that it is revoked.
   */
  ghost predicate ClientInv(w: World, c: ClientId)
    requires c in w.clients
  {
    var client := w.clients[c];
    && (client.spent ==>
          && (client.flight.Idle? || client.flight.Settling?)
          && client.refreshToken.Some? && client.refreshToken.value in w.presented)
    && (client.flight.Answered? ==>
          && client.flight.token in w.presented && client.flight.token in w.store
          && (client.flight.answer.Ok? ==> w.store[client.flight.token].revoked))
  }

  ghost predicate SpentInv(w: World) {
    forall c :: c in w.clients ==> ClientInv(w, c)
  }

  ghost predicate Inv(w: World) {
    && (forall h :: HolderInv(w, h))
    && SpentInv(w)
    && (forall h, h' :: h != h' && Held(w, h).Some? ==> Held(w, h') != Held(w, h))
    && NoDup(w.presented)
    && (forall i :: 0 <= i < |w.presented| ==> w.presented[i] in w.store)
    && !w.reuseDetected
  }

  /** A step that only moves tokens between holders, presents none and serves nothing. */
  lemma MovingKeepsInv(w: World, w': World)
    requires Inv(w) && w'.store == w.store && w'.presented == w.presented && !w'.reuseDetected
    requires forall h :: Held(w', h).Some? ==> Held(w', h) == Held(w, h)
    requires SpentInv(w')
    ensures Inv(w')
  {
    forall h
      ensures HolderInv(w', h)
    {
      assert HolderInv(w, h);
    }
  }

  lemma PresentingKeepsInv(w: World, c: ClientId)
    requires Inv(w) && c in w.clients && !w.clients[c].spent
    ensures Inv(EnsureFreshAccessToken(w, c))
  {
    var w' := EnsureFreshAccessToken(w, c);
    if w' != w {
      assert HolderInv(w, Stored(c)) && Held(w', Underway(c)) == Held(w, Stored(c)) && Held(w', Stored(c)) == None;
      var t := w.clients[c].refreshToken.value;
      assert forall h :: h != Underway(c) && h != Stored(c) ==> Held(w', h) == Held(w, h);
      forall h
        ensures HolderInv(w', h)
      {
        assert HolderInv(w, h);
        assert h != Stored(c) ==> Held(w, h) != Some(t);
      }
    }
  }

  lemma ServingKeepsInv(w: World, step: Step, w': World)
    requires Inv(w) && step.ServeRefresh? && Next(w, step, w')
    ensures Inv(w')
  {
    var c, minted := step.c, step.minted;
    var token := w.clients[c].flight.token;
    assert HolderInv(w, Underway(c)) && Held(w, Underway(c)) == Some(token);
    assert forall h :: h != Underway(c) && h != Minted(c) ==> Held(w', h) == Held(w, h);
    assert Held(w', Underway(c)) == None;
    assert Held(w', Minted(c)).Some? ==> Held(w', Minted(c)) == Some(minted);
    forall h
      ensures HolderInv(w', h)
      ensures h != Minted(c) ==> Held(w', h) != Some(minted)
    {
      assert HolderInv(w, h);
      assert h != Underway(c) ==> Held(w, h) != Some(token);
    }
  }

  lemma LoginKeepsInv(w: World, step: Step, w': World)
    requires Inv(w) && step.ServeLogin? && Next(w, step, w')
    ensures Inv(w')
  {
    var mine := LoggingIn(step.login);
    assert forall h :: h != mine ==> Held(w', h) == Held(w, h);
    forall h
      ensures HolderInv(w', h)
      ensures h != mine ==> Held(w', h) != Some(step.minted)
    {
      assert HolderInv(w, h);
    }
  }

  /** An answer or a login that arrives hands its token over to the client's store. */
  lemma HandoverKeepsInv(w: World, w': World, from: Holder, to: Holder)
    requires Inv(w) && w'.store == w.store && w'.presented == w.presented && !w'.reuseDetected
    requires !IsOut(from) && !IsOut(to) && from != to && SpentInv(w')
    requires forall h :: h != from && h != to && Held(w', h).Some? ==> Held(w', h) == Held(w, h)
    requires Held(w', from).None? && (Held(w', to).Some? ==> Held(w', to) == Held(w, from))
    ensures Inv(w')
  {
    assert HolderInv(w, from);
    forall h
      ensures HolderInv(w', h)
    {
      assert HolderInv(w, h);
    }
  }

  lemma OrphanKeepsInv(w: World, step: Step, w': World)
    requires Inv(w) && step.ServeOrphan? && Next(w, step, w')
    ensures Inv(w')
  {
    var mine, token := Orphaned(step.o), w.orphans[step.o];
    assert HolderInv(w, mine) && Held(w, mine) == Some(token);
    assert forall h :: h != mine ==> Held(w', h) == Held(w, h);
    assert Held(w', mine) == None;
    forall h
      ensures HolderInv(w', h)
    {
      assert HolderInv(w, h);
      assert h != mine ==> Held(w, h) != Some(token);
    }
  }

  /** A reload only moves a token that is out from its page to nobody's. */
  lemma ReloadKeepsInv(w: World, c: ClientId, o: OrphanId)
    requires Inv(w) && c in w.clients && o !in w.orphans
    ensures Inv(Reloaded(w, c, o))
  {
    var w', client := Reloaded(w, c, o), w.clients[c];
    var from, to := Underway(c), Orphaned(o);
    assert HolderInv(w, from) && Held(w, to) == None && Held(w', from) == None;
    assert Held(w', to).Some? ==> Held(w', to) == Held(w, from);
    assert Held(w', Stored(c)).Some? ==> Held(w', Stored(c)) == Held(w, Stored(c));
    assert forall h :: h != from && h != to && h != Stored(c) && Held(w', h).Some? ==> Held(w', h) == Held(w, h);
    forall h
      ensures HolderInv(w', h)
    {
      assert HolderInv(w, h);
    }
    SpentAfterReload(w, c, o);
  }

  lemma SpentAfterReload(w: World, c: ClientId, o: OrphanId)
    requires Inv(w) && c in w.clients && o !in w.orphans
    ensures SpentInv(Reloaded(w, c, o))
  {
    var client := w.clients[c];
    if StoredIsInFlight(client) {
      assert HolderInv(w, Underway(c));
      FlightWasPresented(w, c);
    }
  }

  /** What is out was presented: also the token whose answer is on its way back. */
  lemma FlightWasPresented(w: World, c: ClientId)
    requires Inv(w) && c in w.clients && (w.clients[c].flight.Sent? || w.clients[c].flight.Answered?)
    ensures w.clients[c].flight.token in w.presented
  {
    assert HolderInv(w, Underway(c)) && ClientInv(w, c);
  }

  /** The page asks for a refresh with a token that was sent before. */
  predicate SendsSpent(w: World, step: Step) {
    step.RequestNeedsToken? && step.c in w.clients && w.clients[step.c].spent && w.clients[step.c].flight.Idle?
  }

  lemma ArrivalKeepsInv(w: World, step: Step, w': World)
    requires Inv(w) && Next(w, step, w') && (step.ReceiveAnswer? || step.ReceiveLogin?)
    ensures Inv(w')
  {
    if step.ReceiveAnswer? {
      HandoverKeepsInv(w, w', Minted(step.c), Stored(step.c));
    } else {
      HandoverKeepsInv(w, w', LoggingIn(step.login), Stored(w.logins[step.login].0));
    }
  }

  lemma LossKeepsInv(w: World, step: Step, w': World)
    requires Inv(w) && Next(w, step, w')
    requires step.ClearPromise? || step.LoseLogin? || step.ClearTokens? || step.LoseOrphan?
    ensures Inv(w')
  {
    MovingKeepsInv(w, w');
  }

  lemma RequestKeepsInv(w: World, step: Step, w': World)
    requires Inv(w) && step.RequestNeedsToken? && Next(w, step, w') && !SendsSpent(w, step)
    ensures Inv(w')
  {
    if w.clients[step.c].spent {
      assert ClientInv(w, step.c);
    } else {
      PresentingKeepsInv(w, step.c);
    }
  }

  lemma NextKeepsInv(w: World, step: Step, w': World)
    requires Inv(w) && Next(w, step, w') && !SendsSpent(w, step)
    ensures Inv(w')
  {
    hide Inv, SendsSpent, Refreshed;
    match step
    case RequestNeedsToken(_) => RequestKeepsInv(w, step, w');
    case ServeRefresh(_, _, _, _) => ServingKeepsInv(w, step, w');
    case ServeLogin(_, _, _, _, _, _) => LoginKeepsInv(w, step, w');
    case ReceiveAnswer(_) => ArrivalKeepsInv(w, step, w');
    case ReceiveLogin(_) => ArrivalKeepsInv(w, step, w');
    case ClearPromise(_) => LossKeepsInv(w, step, w');
    case LoseLogin(_) => LossKeepsInv(w, step, w');
    case ClearTokens(_) => LossKeepsInv(w, step, w');
    case Reload(c, o) => ReloadKeepsInv(w, c, o);
    case ServeOrphan(_, _, _, _) => OrphanKeepsInv(w, step, w');
    case LoseOrphan(_) => LossKeepsInv(w, step, w');
  }

  lemma SendingSpentPresentsTwice(w: World, step: Step, w': World)
    requires Inv(w) && Next(w, step, w') && SendsSpent(w, step)
    ensures !NoDup(w'.presented)
  {
    var t := w.clients[step.c].refreshToken.value;
    var k :| 0 <= k < |w.presented| && w.presented[k] == t;
    assert w'.presented[k] == w'.presented[|w.presented|];
  }

  ghost predicate Start(w: World) {
    && w.store == map[] && w.logins == map[] && w.orphans == map[] && w.presented == [] && !w.reuseDetected
    && forall c :: c in w.clients ==> w.clients[c] == Client(None, Idle, false)
  }

  ghost predicate Run(run: seq<World>, steps: seq<Step>) {
    && |run| == |steps| + 1 && Start(run[0])
    && forall i :: 0 <= i < |steps| ==> Next(run[i], steps[i], run[i + 1])
  }

  lemma StartIsSound(w: World)
    requires Start(w)
    ensures Inv(w)
  {
    forall h
      ensures Held(w, h).None?
    {
    }
  }

  lemma {:induction false} RunKeepsInv(run: seq<World>, steps: seq<Step>, i: nat)
    requires Run(run, steps) && i < |run|
    requires forall j :: 0 <= j < i ==> !SendsSpent(run[j], steps[j])
    ensures Inv(run[i])
  {
    hide Next, Inv, SendsSpent;
    if i > 0 {
      RunKeepsInv(run, steps, i - 1);
      NextKeepsInv(run[i - 1], steps[i - 1], run[i]);
    } else {
      StartIsSound(run[0]);
    }
  }

  lemma InvMeans(w: World)
    requires Inv(w)
    ensures NoDup(w.presented) && !w.reuseDetected
  {
  }

  /**
   Any number of clients, requests, logins, logouts, rejected sessions and reloads, in any
   interleaving: no refresh token is ever presented twice exactly when no page asks for a refresh
   with a spent token; and then the server never takes its reuse branch.
   */
  lemma NoTokenIsPresentedTwiceIff(run: seq<World>, steps: seq<Step>)
    requires Run(run, steps)
    ensures (forall i :: 0 <= i < |run| ==> NoDup(run[i].presented))
        <==> (forall i :: 0 <= i < |steps| ==> !SendsSpent(run[i], steps[i]))
    ensures (forall i :: 0 <= i < |steps| ==> !SendsSpent(run[i], steps[i]))
            ==> forall i :: 0 <= i < |run| ==> !run[i].reuseDetected
  {
    hide Next, Inv, SendsSpent, NoDup;
    if forall i :: 0 <= i < |run| ==> NoDup(run[i].presented) {
      for n := 0 to |steps|
        invariant forall i :: 0 <= i < n ==> !SendsSpent(run[i], steps[i])
      {
        RunKeepsInv(run, steps, n);
        assert Next(run[n], steps[n], run[n + 1]) && NoDup(run[n + 1].presented);
        if SendsSpent(run[n], steps[n]) {
          SendingSpentPresentsTwice(run[n], steps[n], run[n + 1]);
        }
      }
    }
    if forall i :: 0 <= i < |steps| ==> !SendsSpent(run[i], steps[i]) {
      forall i | 0 <= i < |run|
        ensures NoDup(run[i].presented) && !run[i].reuseDetected
      {
        RunKeepsInv(run, steps, i);
        InvMeans(run[i]);
      }
    }
  }

  /** A token is spent only by a reload of its page while it was out, since when the client got no other. */
  lemma {:induction false} SpentByReload(run: seq<World>, steps: seq<Step>, i: nat, c: ClientId)
    requires Run(run, steps) && i < |run| && c in run[i].clients && run[i].clients[c].spent
    ensures exists j :: 0 <= j < i && ReloadsInFlight(run[j], steps[j], c)
                        && run[j].clients[c].refreshToken == run[i].clients[c].refreshToken
  {
    if i > 0 {
      var w, step := run[i - 1], steps[i - 1];
      assert Next(w, step, run[i]);
      StaysSpent(w, step, run[i], c);
      if ReloadsInFlight(w, step, c) {
      } else {
        hide ReloadsInFlight, Next;
        SpentByReload(run, steps, i - 1, c);
      }
    }
  }

  predicate ReloadsInFlight(w: World, step: Step, c: ClientId) {
    step.Reload? && step.c == c && c in w.clients && StoredIsInFlight(w.clients[c])
  }

  lemma StaysSpent(w: World, step: Step, w': World, c: ClientId)
    requires Next(w, step, w') && c in w'.clients && w'.clients[c].spent
    ensures c in w.clients && w'.clients[c].refreshToken == w.clients[c].refreshToken
    ensures ReloadsInFlight(w, step, c) || w.clients[c].spent
  {
    hide Refreshed;
  }

  // ---- What a reload leads to ----

  lemma RotationRevokesOnlyPresented(store: Store, presented: Token, minted: Token, now: Instant,
          days: int, other: Token)
    requires Accepts(store, presented, now) && minted !in store && other in store
    ensures var (store', answer) := Refreshed(store, presented, minted, now, days);
            && answer == Ok(minted) && store'[presented].revoked && other in store'
            && (other != presented ==> store'[other] == store[other])
  {
  }

  /** Only a token that is there and unrevoked is no reuse. */
  lemma ReuseIff(store: Store, presented: Token, minted: Token, now: Instant, days: int)
    requires presented in store
    ensures Refreshed(store, presented, minted, now, days).1 == Err(ReuseDetected) <==> store[presented].revoked
  {
  }

  /**
   A page reloaded while its refresh is on the way, then asking again: once both requests are
   served, in either order, the server has seen a reuse exactly when the stored token was the one
   in flight, and not, say, one that a login had brought meanwhile.
   */
  lemma ReloadIsReuseIff(w: World, c: ClientId, o: OrphanId, minted: Token, other: Token, now: Instant,
          days: int, orphanFirst: bool)
    returns (reloaded: World, again: World, once: World, both: World)
    requires Inv(w) && c in w.clients && o !in w.orphans && w.clients[c].flight.Sent?
    requires w.clients[c].refreshToken.Some? && !w.clients[c].spent
    requires Accepts(w.store, w.clients[c].flight.token, now) && Accepts(w.store, w.clients[c].refreshToken.value, now)
    requires minted !in w.store && other !in w.store && minted != other
    ensures Next(w, Reload(c, o), reloaded) && Next(reloaded, RequestNeedsToken(c), again)
    ensures var first := if orphanFirst then ServeOrphan(o, minted, now, days) else ServeRefresh(c, minted, now, days);
            Next(again, first, once)
    ensures var second := if orphanFirst then ServeRefresh(c, other, now, days) else ServeOrphan(o, other, now, days);
            Next(once, second, both)
    ensures both.reuseDetected <==> w.clients[c].refreshToken == Some(w.clients[c].flight.token)
  {
    var t, u := w.clients[c].flight.token, w.clients[c].refreshToken.value;
    InvMeans(w);
    hide Inv, Refreshed;
    reloaded := Reloaded(w, c, o);
    again := EnsureFreshAccessToken(reloaded, c);
    var first, second := if orphanFirst then t else u, if orphanFirst then u else t;
    RotationRevokesOnlyPresented(w.store, first, minted, now, days, second);
    ReuseIff(Refreshed(w.store, first, minted, now, days).0, second, other, now, days);
    NewIsNew(w.store, first, minted, other, now, days);
    if orphanFirst {
      once := OrphanServed(again, o, minted, now, days);
      both := RefreshServed(once, c, other, now, days);
    } else {
      once := RefreshServed(again, c, minted, now, days);
      both := OrphanServed(once, o, other, now, days);
    }
  }

  lemma NewIsNew(store: Store, presented: Token, minted: Token, other: Token, now: Instant, days: int)
    requires Accepts(store, presented, now) && minted !in store && other !in store && minted != other
    ensures other !in Refreshed(store, presented, minted, now, days).0
  {
  }

  /**
   Reloaded once the answer is on its way back, the page presents a token that is revoked already, if
   it is still the stored one.
   */
  lemma ReloadAfterAnswerIsReuseIff(w: World, c: ClientId, o: OrphanId, other: Token, now: Instant, days: int)
    returns (reloaded: World, again: World, served: World)
    requires Inv(w) && c in w.clients && o !in w.orphans && w.clients[c].flight.Answered?
    requires w.clients[c].refreshToken.Some? && !w.clients[c].spent
    requires w.clients[c].flight.answer.Ok? && other !in w.store
    ensures Next(w, Reload(c, o), reloaded) && Next(reloaded, RequestNeedsToken(c), again)
    ensures Next(again, ServeRefresh(c, other, now, days), served)
    ensures served.reuseDetected <==> w.clients[c].refreshToken == Some(w.clients[c].flight.token)
  {
    InvMeans(w);
    assert HolderInv(w, Stored(c)) && ClientInv(w, c);
    reloaded := Reloaded(w, c, o);
    again := EnsureFreshAccessToken(reloaded, c);
    served := RefreshServed(again, c, other, now, days);
    ReuseIff(w.store, w.clients[c].refreshToken.value, other, now, days);
  }

  /**
   A refresh that nothing comes between: the client ends with the new token and is idle again; the
   server has rotated the old one, presented once. One that the server refuses leaves it without any.
   */
  lemma RefreshRoundTrip(w: World, c: ClientId, t: Token, minted: Token, now: Instant, days: int,
          asked: World, served: World, received: World, cleared: World)
    requires c in w.clients && w.clients[c].flight.Idle? && w.clients[c].refreshToken == Some(t) && minted !in w.store
    requires Next(w, RequestNeedsToken(c), asked) && Next(asked, ServeRefresh(c, minted, now, days), served)
    requires Next(served, ReceiveAnswer(c), received) && Next(received, ClearPromise(c), cleared)
    ensures var token := if Accepts(w.store, t, now) then Some(minted) else None;
            && c in cleared.clients && cleared.clients[c] == Client(token, Idle, false)
            && cleared.clients == w.clients[c := cleared.clients[c]]
            && cleared.store == Refreshed(w.store, t, minted, now, days).0
            && cleared.presented == w.presented + [t]
            && cleared.orphans == w.orphans && cleared.logins == w.logins
            && (cleared.reuseDetected <==> w.reuseDetected || (t in w.store && w.store[t].revoked))
  {
  }

  /** A login that arrives is what the client has from then on, whatever it had before. */
  lemma LoginRoundTrip(w: World, c: ClientId, login: LoginId, userId: UserId, mfa: bool, expiresAt: Instant,
          minted: Token, served: World, received: World)
    requires c in w.clients && Next(w, ServeLogin(c, login, userId, mfa, expiresAt, minted), served)
    requires Next(served, ReceiveLogin(login), received)
    ensures received.clients == w.clients[c := Client(Some(minted), w.clients[c].flight, false)]
    ensures received.store == w.store[minted := Row(userId, expiresAt, false, mfa, None)]
    ensures received.logins == w.logins && received.presented == w.presented
  {
    assert w.logins[login := (c, minted)] - {login} == w.logins;
  }
}
