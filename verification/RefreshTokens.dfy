/**
 The server side of session refresh (src/modules/auth/auth.service.ts). A token stands for
 its SHA-256 hash, which is taken to be injective; random tokens are taken to be new.
 Requests are atomic.
 */
module RefreshTokens {
  import opened Common

  type Token = nat
  type UserId = nat

  datatype Row = Row(
    userId: UserId, expiresAt: Instant, revoked: bool, mfaAuthenticated: bool, replacedBy: Option<Token>)

  type Store = map<Token, Row>

  datatype RefreshError = InvalidToken | ReuseDetected | TokenExpired

  function Issued(store: Store, userId: UserId, mfa: bool, expiresAt: Instant, minted: Token): Store {
    store[minted := Row(userId, expiresAt, false, mfa, None)]
  }

  function RevokedAll(store: Store, userId: UserId): Store {
    map t | t in store :: if store[t].userId == userId then store[t].(revoked := true) else store[t]
  }

  predicate Accepts(store: Store, presented: Token, now: Instant) {
    presented in store && !store[presented].revoked && now <= store[presented].expiresAt
  }

  function Refreshed(store: Store, presented: Token, minted: Token, now: Instant, days: int)
    : (Store, Result<Token, RefreshError>)
  {
    if presented !in store then (store, Err(InvalidToken))
    else if store[presented].revoked then (RevokedAll(store, store[presented].userId), Err(ReuseDetected))
    else if store[presented].expiresAt < now then (store, Err(TokenExpired))
    else
      var row := store[presented];
      var issued := Issued(store, row.userId, row.mfaAuthenticated, AddDays(now, days), minted);
      (issued[presented := row.(revoked := true, replacedBy := Some(minted))], Ok(minted))
  }

  class AuthService {
    var refreshTokens: Store
    const refreshDays: int

    constructor (refreshDays: int)
      ensures refreshTokens == map[] && this.refreshDays == refreshDays
    {
      refreshTokens := map[];
      this.refreshDays := refreshDays;
    }

    method GenerateTokens(userId: UserId, mfaAuthenticated: bool, now: Instant, random: Token)
      returns (refreshToken: Token)
      requires random !in refreshTokens
      modifies this
      ensures refreshToken == random
      ensures refreshTokens == old(refreshTokens)[
                random := Row(userId, now + refreshDays * 86_400_000, false, mfaAuthenticated, None)]
    {
      refreshTokens := refreshTokens[random := Row(userId, AddDays(now, refreshDays), false, mfaAuthenticated, None)];
      refreshToken := random;
    }

    /** One bulk update of the user's rows that are not revoked yet. */
    method RevokeAllUserTokens(userId: UserId)
      modifies this
      ensures refreshTokens == RevokedAll(old(refreshTokens), userId)
    {
      var hit := map t | t in refreshTokens && refreshTokens[t].userId == userId && !refreshTokens[t].revoked
                   :: refreshTokens[t].(revoked := true);
      refreshTokens := refreshTokens + hit;
    }

    method Refresh(presented: Token, now: Instant, random: Token) returns (r: Result<Token, RefreshError>)
      requires random !in refreshTokens
      modifies this
      ensures (refreshTokens, r) == Refreshed(old(refreshTokens), presented, random, now, refreshDays)
    {
      if presented !in refreshTokens {
        return Err(InvalidToken);
      }
      var storedToken := refreshTokens[presented];
      if storedToken.revoked {
        RevokeAllUserTokens(storedToken.userId);
        return Err(ReuseDetected);
      }
      if storedToken.expiresAt < now {
        return Err(TokenExpired);
      }
      storedToken := storedToken.(revoked := true);
      var minted := GenerateTokens(storedToken.userId, storedToken.mfaAuthenticated, now, random);
      storedToken := storedToken.(replacedBy := Some(minted));
      refreshTokens := refreshTokens[presented := storedToken];
      r := Ok(minted);
    }
  }

  /**
   How a presented token is answered. An unknown one and an expired one change nothing; a live one
   is revoked for a new one of the same user and MFA state, which lives for the given days from now.
   */
  lemma RefreshIsAnswered(store: Store, presented: Token, minted: Token, now: Instant, days: int)
    requires minted !in store
    ensures var (store', r) := Refreshed(store, presented, minted, now, days);
            && (r == Err(InvalidToken) <==> presented !in store)
            && (r == Err(ReuseDetected) <==> presented in store && store[presented].revoked)
            && (r == Err(TokenExpired)
                <==> presented in store && !store[presented].revoked && store[presented].expiresAt < now)
            && (r == Err(InvalidToken) || r == Err(TokenExpired) ==> store' == store)
            && (r.Ok? ==>
                  && r == Ok(minted) && store'.Keys == store.Keys + {minted}
                  && (forall t :: t in store && t != presented ==> store'[t] == store[t])
                  && var row := store[presented];
                  && store'[presented] == row.(revoked := true, replacedBy := Some(minted))
                  && store'[minted] == Row(row.userId, now + days * 86_400_000, false, row.mfaAuthenticated, None))
  {
  }

  // ---- Rotation chains ----

  datatype Request =
    | Login(userId: UserId, mfa: bool, expiresAt: Instant, minted: Token)
    | Refresh(presented: Token, minted: Token, now: Instant, days: int)
    | ResetPassword(userId: UserId)

  /** The store, and for every login the tokens it led to, in the order they were issued. */
  datatype State = State(store: Store, chains: seq<seq<Token>>)

  function Extended(chains: seq<seq<Token>>, presented: Token, minted: Token): seq<seq<Token>> {
    seq(|chains|, c requires 0 <= c < |chains| =>
      if chains[c] != [] && chains[c][|chains[c]| - 1] == presented then chains[c] + [minted] else chains[c])
  }

  predicate Enabled(s: State, r: Request) {
    !r.ResetPassword? ==> r.minted !in s.store
  }

  function Serve(s: State, r: Request): State {
    match r
    case Login(userId, mfa, expiresAt, minted) =>
      State(Issued(s.store, userId, mfa, expiresAt, minted), s.chains + [[minted]])
    case Refresh(presented, minted, now, days) =>
      State(Refreshed(s.store, presented, minted, now, days).0,
            if Accepts(s.store, presented, now) then Extended(s.chains, presented, minted) else s.chains)
    case ResetPassword(userId) => State(RevokedAll(s.store, userId), s.chains)
  }

  /**
   Every token but the last is revoked and points to its successor; user and MFA flag never change
   along the chain.
   */
  ghost predicate IsChain(store: Store, chain: seq<Token>) {
    && chain != []
    && (forall i :: 0 <= i < |chain| ==> chain[i] in store)
    && (forall i :: 0 <= i < |chain| ==>
          && store[chain[i]].userId == store[chain[0]].userId
          && store[chain[i]].mfaAuthenticated == store[chain[0]].mfaAuthenticated)
    && (forall i :: 0 <= i < |chain| - 1
          ==> store[chain[i]].revoked && store[chain[i]].replacedBy == Some(chain[i + 1]))
    && store[chain[|chain| - 1]].replacedBy.None?
  }

  ghost predicate Occurs(chains: seq<seq<Token>>, t: Token, c: int, i: int) {
    0 <= c < |chains| && 0 <= i < |chains[c]| && chains[c][i] == t
  }

  ghost predicate OccursOnce(chains: seq<seq<Token>>) {
    forall t, c, i, c', i' :: Occurs(chains, t, c, i) && Occurs(chains, t, c', i') ==> c == c' && i == i'
  }

  ghost predicate HasPlace(chains: seq<seq<Token>>, t: Token) {
    exists c, i :: Occurs(chains, t, c, i)
  }

  ghost predicate Covers(chains: seq<seq<Token>>, store: Store) {
    forall t {:trigger HasPlace(chains, t)} :: t in store ==> HasPlace(chains, t)
  }

  ghost predicate ChainsInv(s: State) {
    && (forall c :: 0 <= c < |s.chains| ==> IsChain(s.store, s.chains[c]))
    && OccursOnce(s.chains)
    && Covers(s.chains, s.store)
  }

  lemma RevokingKeepsChain(store: Store, chain: seq<Token>, userId: UserId)
    requires IsChain(store, chain)
    ensures IsChain(RevokedAll(store, userId), chain)
  {
  }

  lemma OccurringIsStored(s: State, t: Token, c: int, i: int)
    requires ChainsInv(s) && Occurs(s.chains, t, c, i)
    ensures t in s.store
  {
    hide OccursOnce, Covers;
    assert IsChain(s.store, s.chains[c]);
  }

  lemma NewOccursNowhere(s: State, t: Token)
    requires ChainsInv(s) && t !in s.store
    ensures forall c, i :: !Occurs(s.chains, t, c, i)
  {
    hide ChainsInv, Occurs;
    forall c, i | Occurs(s.chains, t, c, i)
      ensures false
    {
      OccurringIsStored(s, t, c, i);
    }
  }

  lemma OccursAfterLogin(chains: seq<seq<Token>>, minted: Token, t: Token, c: int, i: int)
    ensures Occurs(chains + [[minted]], t, c, i)
        <==> Occurs(chains, t, c, i) || (t == minted && c == |chains| && i == 0)
  {
  }

  lemma OccursAfterRefresh(chains: seq<seq<Token>>, presented: Token, minted: Token, t: Token, c: int, i: int)
    ensures Occurs(Extended(chains, presented, minted), t, c, i)
            <==> Occurs(chains, t, c, i)
                 || (t == minted && 0 <= c < |chains| && i == |chains[c]| > 0 && chains[c][i - 1] == presented)
  {
  }

  lemma IssuingKeepsChain(store: Store, chain: seq<Token>, userId: UserId, mfa: bool, expiresAt: Instant, minted: Token)
    requires IsChain(store, chain) && minted !in store
    ensures IsChain(Issued(store, userId, mfa, expiresAt, minted), chain)
  {
    assert forall i :: 0 <= i < |chain| ==> chain[i] != minted;
  }

  lemma NewChain(store: Store, userId: UserId, mfa: bool, expiresAt: Instant, minted: Token)
    ensures IsChain(Issued(store, userId, mfa, expiresAt, minted), [minted])
  {
  }

  lemma LoginKeepsOccurrences(s: State, r: Request)
    requires ChainsInv(s) && r.Login? && Enabled(s, r)
    ensures OccursOnce(Serve(s, r).chains) && Covers(Serve(s, r).chains, Serve(s, r).store)
  {
    hide Occurs, IsChain;
    NewOccursNowhere(s, r.minted);
    forall t, c, i
      ensures Occurs(s.chains + [[r.minted]], t, c, i)
              <==> Occurs(s.chains, t, c, i) || (t == r.minted && c == |s.chains| && i == 0)
    {
      OccursAfterLogin(s.chains, r.minted, t, c, i);
    }
    assert Occurs(s.chains + [[r.minted]], r.minted, |s.chains|, 0);
    assert forall t :: HasPlace(s.chains, t) ==> HasPlace(s.chains + [[r.minted]], t);
  }

  lemma LoginKeepsChains(s: State, r: Request)
    requires ChainsInv(s) && r.Login? && Enabled(s, r)
    ensures ChainsInv(Serve(s, r))
  {
    hide IsChain, OccursOnce, Covers;
    LoginKeepsOccurrences(s, r);
    var s' := Serve(s, r);
    forall c | 0 <= c < |s'.chains|
      ensures IsChain(s'.store, s'.chains[c])
    {
      if c < |s.chains| {
        IssuingKeepsChain(s.store, s.chains[c], r.userId, r.mfa, r.expiresAt, r.minted);
      } else {
        NewChain(s.store, r.userId, r.mfa, r.expiresAt, r.minted);
      }
    }
  }

  lemma ChainUntouchedByRefresh(store: Store, chain: seq<Token>, presented: Token, minted: Token,
          now: Instant, days: int)
    requires IsChain(store, chain) && Accepts(store, presented, now) && minted !in store
    requires forall i :: 0 <= i < |chain| ==> chain[i] != presented
    ensures IsChain(Refreshed(store, presented, minted, now, days).0, chain)
  {
    var store' := Refreshed(store, presented, minted, now, days).0;
    assert forall i :: 0 <= i < |chain| ==> chain[i] in store' && store'[chain[i]] == store[chain[i]];
  }

  lemma ChainGrowsByRefresh(store: Store, chain: seq<Token>, presented: Token, minted: Token, now: Instant, days: int)
    requires IsChain(store, chain) && Accepts(store, presented, now) && minted !in store
    requires chain[|chain| - 1] == presented && forall i :: 0 <= i < |chain| - 1 ==> chain[i] != presented
    ensures IsChain(Refreshed(store, presented, minted, now, days).0, chain + [minted])
  {
    var store', longer := Refreshed(store, presented, minted, now, days).0, chain + [minted];
    var last := |chain| - 1;
    assert forall i :: 0 <= i < last ==> longer[i] == chain[i] && store'[longer[i]] == store[chain[i]];
    assert longer[last] == presented && longer[last + 1] == minted;
  }

  lemma RefreshKeepsChain(s: State, r: Request, c: nat)
    requires ChainsInv(s) && r.Refresh? && Enabled(s, r) && Accepts(s.store, r.presented, r.now) && c < |s.chains|
    ensures IsChain(Serve(s, r).store, Serve(s, r).chains[c])
  {
    var chain := s.chains[c];
    var last := |chain| - 1;
    assert IsChain(s.store, chain);
    forall i | 0 <= i < |chain|
      ensures chain[i] == r.presented ==> i == last
    {
      assert i < last ==> s.store[chain[i]].revoked;
    }
    if chain[last] == r.presented {
      ChainGrowsByRefresh(s.store, chain, r.presented, r.minted, r.now, r.days);
    } else {
      ChainUntouchedByRefresh(s.store, chain, r.presented, r.minted, r.now, r.days);
    }
  }

  lemma PresentedIsLast(s: State, presented: Token, now: Instant, c: int, i: int)
    requires ChainsInv(s) && Accepts(s.store, presented, now) && Occurs(s.chains, presented, c, i)
    ensures i == |s.chains[c]| - 1
  {
    hide OccursOnce, Covers;
    assert IsChain(s.store, s.chains[c]);
  }

  lemma PlacesAfterRefresh(s: State, r: Request, pc: int, pi: int, t: Token, c: int, i: int)
    requires ChainsInv(s) && r.Refresh?
    requires Occurs(s.chains, r.presented, pc, pi) && pi == |s.chains[pc]| - 1
    ensures Occurs(Extended(s.chains, r.presented, r.minted), t, c, i)
            <==> Occurs(s.chains, t, c, i) || (t == r.minted && c == pc && i == pi + 1)
  {
    hide IsChain, Covers, Extended;
    OccursAfterRefresh(s.chains, r.presented, r.minted, t, c, i);
    if 0 <= c < |s.chains| && i == |s.chains[c]| > 0 && s.chains[c][i - 1] == r.presented {
      assert Occurs(s.chains, r.presented, c, i - 1);
    }
  }

  lemma RefreshKeepsOccurrences(s: State, r: Request)
    requires ChainsInv(s) && r.Refresh? && Enabled(s, r) && Accepts(s.store, r.presented, r.now)
    ensures OccursOnce(Serve(s, r).chains) && Covers(Serve(s, r).chains, Serve(s, r).store)
  {
    hide Occurs, IsChain, Extended;
    NewOccursNowhere(s, r.minted);
    assert HasPlace(s.chains, r.presented);
    var pc, pi :| Occurs(s.chains, r.presented, pc, pi);
    PresentedIsLast(s, r.presented, r.now, pc, pi);
    var chains' := Extended(s.chains, r.presented, r.minted);
    forall t, c, i
      ensures Occurs(chains', t, c, i) <==> Occurs(s.chains, t, c, i) || (t == r.minted && c == pc && i == pi + 1)
    {
      assert Occurs(s.chains, r.presented, pc, pi);
      PlacesAfterRefresh(s, r, pc, pi, t, c, i);
    }
    assert Occurs(chains', r.minted, pc, pi + 1);
    assert forall t :: HasPlace(s.chains, t) ==> HasPlace(chains', t);
  }

  lemma RefreshKeepsChains(s: State, r: Request)
    requires ChainsInv(s) && r.Refresh? && Enabled(s, r) && Accepts(s.store, r.presented, r.now)
    ensures ChainsInv(Serve(s, r))
  {
    hide IsChain, OccursOnce, Covers, Refreshed;
    RefreshKeepsOccurrences(s, r);
    var s' := Serve(s, r);
    forall c | 0 <= c < |s'.chains|
      ensures IsChain(s'.store, s'.chains[c])
    {
      RefreshKeepsChain(s, r, c);
    }
  }

  lemma RequestKeepsChains(s: State, r: Request)
    requires ChainsInv(s) && Enabled(s, r)
    ensures ChainsInv(Serve(s, r))
  {
    if r.Login? {
      LoginKeepsChains(s, r);
    } else if r.Refresh? && Accepts(s.store, r.presented, r.now) {
      RefreshKeepsChains(s, r);
    } else {
      var userId := if r.ResetPassword? then r.userId
                    else if r.presented in s.store then s.store[r.presented].userId else 0;
      forall c | 0 <= c < |s.chains|
        ensures IsChain(RevokedAll(s.store, userId), s.chains[c]) && IsChain(s.store, s.chains[c])
      {
        RevokingKeepsChain(s.store, s.chains[c], userId);
      }
    }
  }

  ghost predicate Run(run: seq<State>, requests: seq<Request>) {
    && |run| == |requests| + 1
    && run[0] == State(map[], [])
    && forall i :: 0 <= i < |requests| ==> Enabled(run[i], requests[i]) && run[i + 1] == Serve(run[i], requests[i])
  }

  /**
   At every moment of every run the tokens of one login form one chain of replacements that
   never returns to itself; only the last of a chain can be unrevoked, and it carries the
   login's user and MFA flag.
   */
  lemma {:induction false} LoginsFormChains(run: seq<State>, requests: seq<Request>, k: nat)
    requires Run(run, requests) && k < |run|
    ensures ChainsInv(run[k])
    ensures forall c, i :: 0 <= c < |run[k].chains| && 0 <= i < |run[k].chains[c]| - 1
                           ==> run[k].store[run[k].chains[c][i]].revoked
  {
    if k > 0 {
      LoginsFormChains(run, requests, k - 1);
      RequestKeepsChains(run[k - 1], requests[k - 1]);
    }
    assert forall c :: 0 <= c < |run[k].chains| ==> IsChain(run[k].store, run[k].chains[c]);
  }

  /** Presenting a token that was already replaced ends every session of its user, and nobody else's. */
  lemma ReuseEndsAllSessions(store: Store, presented: Token, minted: Token, now: Instant, days: int)
    requires presented in store && store[presented].revoked
    ensures var (store', r) := Refreshed(store, presented, minted, now, days);
            && r == Err(ReuseDetected) && store'.Keys == store.Keys
            && (forall t :: t in store' && store'[t].userId == store[presented].userId ==> store'[t].revoked)
            && (forall t :: t in store && store[t].userId != store[presented].userId ==> store'[t] == store[t])
  {
  }
}
