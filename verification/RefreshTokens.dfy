/** Refresh tokens: rotation and revocation through a blacklist of token ids. Times are milliseconds of one clock;
    token expiries are whole seconds, as in section 4.1.4 of RFC 7519. Signatures are uninterpreted: a token is
    genuine or it is not. */
module RefreshTokens {
  import opened Numbers
  import opened Wrappers

  datatype Kind = Access | Refresh

  datatype Token = Token(genuine: bool, kind: Kind, jti: string, sub: string, exp: nat)

  datatype Pair = Pair(access: Token, refresh: Token)

  datatype Error = BadToken | WrongKind | Revoked | NoUser

  /** Blacklisted ids and when Redis drops them. */
  type Blacklist = map<string, nat>

  /** A call with its time; `active` is what the user table says then. */
  datatype Request =
    | RefreshCall(token: Token, at: nat, active: bool)
    | LogoutCall(given: Option<Token>, at: nat)

  predicate Decodes(t: Token, now: nat) {
    t.genuine && now < t.exp * 1000
  }

  predicate IsBlacklisted(b: Blacklist, jti: string, now: nat) {
    jti in b && now < b[jti]
  }

  function Verdict(b: Blacklist, t: Token, now: nat, active: bool): Option<Error> {
    if !Decodes(t, now) then Some(BadToken)
    else if t.kind != Refresh then Some(WrongKind)
    else if t.jti != "" && IsBlacklisted(b, t.jti, now) then Some(Revoked)
    else if !active then Some(NoUser)
    else None
  }

  /** Until the token's own expiry, at least one second; tokens without an id cannot be listed. */
  function Listed(b: Blacklist, t: Token, now: nat): Blacklist {
    if t.jti == "" then b else b[t.jti := now + Max(t.exp - now / 1000, 1) * 1000]
  }

  /** Whether the call uses the token up: an accepted refresh, or a logout with a token that still decodes. */
  predicate Consumes(b: Blacklist, r: Request) {
    match r
    case RefreshCall(t, at, active) => Verdict(b, t, at, active) == None
    case LogoutCall(given, at) => given.Some? && Decodes(given.value, at)
  }

  function TokenOf(r: Request): Option<Token> {
    if r.RefreshCall? then Some(r.token) else r.given
  }

  function Step(b: Blacklist, r: Request): Blacklist {
    if Consumes(b, r) then Listed(b, TokenOf(r).value, r.at) else b
  }

  function Issue(sub: string, accessId: string, refreshId: string, now: nat, accessMinutes: nat,
                 refreshDays: nat): Pair {
    Pair(Token(true, Access, accessId, sub, (now + accessMinutes * 60_000) / 1000),
         Token(true, Refresh, refreshId, sub, (now + refreshDays * 86_400_000) / 1000))
  }

  class AuthService {
    const accessMinutes: nat
    const refreshDays: nat
    var blacklist: Blacklist

    constructor (accessMinutes: nat, refreshDays: nat)
      ensures blacklist == map[]
      ensures this.accessMinutes == accessMinutes && this.refreshDays == refreshDays
    {
      this.accessMinutes, this.refreshDays, blacklist := accessMinutes, refreshDays, map[];
    }

    method BlacklistJti(jti: string, ttl: nat, now: nat)
      modifies this
      ensures blacklist == old(blacklist)[jti := now + Max(ttl, 1) * 1000]
    {
      blacklist := blacklist[jti := now + Max(ttl, 1) * 1000];
    }

    /** `accessId` and `refreshId` are the freshly drawn ids of the pair to issue. */
    method RefreshTokens(t: Token, now: nat, active: bool, accessId: string, refreshId: string)
      returns (r: Result<Pair, Error>)
      modifies this
      ensures blacklist == Step(old(blacklist), RefreshCall(t, now, active))
      ensures match Verdict(old(blacklist), t, now, active) {
                case Some(e) => r == Err(e)
                case None => r == Ok(Issue(t.sub, accessId, refreshId, now, accessMinutes, refreshDays))
              }
    {
      if !Decodes(t, now) { return Err(BadToken); }
      if t.kind != Refresh { return Err(WrongKind); }
      if t.jti != "" && IsBlacklisted(blacklist, t.jti, now) { return Err(Revoked); }
      if !active { return Err(NoUser); }
      if t.jti != "" {
        var ttl := Max(t.exp - now / 1000, 1);
        BlacklistJti(t.jti, ttl, now);
      }
      r := Ok(Issue(t.sub, accessId, refreshId, now, accessMinutes, refreshDays));
    }

    method Logout(given: Option<Token>, now: nat)
      modifies this
      ensures blacklist == Step(old(blacklist), LogoutCall(given, now))
    {
      if given.None? || !Decodes(given.value, now) { return; }
      if given.value.jti != "" {
        var ttl := Max(given.value.exp - now / 1000, 1);
        BlacklistJti(given.value.jti, ttl, now);
      }
    }
  }

  // ---------- whole runs ----------

  function Run(rs: seq<Request>): Blacklist {
    if rs == [] then map[] else Step(Run(rs[..|rs| - 1]), rs[|rs| - 1])
  }

  /** Call `i` of the run used its token up. */
  predicate Used(rs: seq<Request>, i: nat)
    requires i < |rs|
  {
    Consumes(Run(rs[..i]), rs[i])
  }

  predicate Presents(r: Request, jti: string) {
    TokenOf(r).Some? && TokenOf(r).value.jti == jti
  }

  ghost predicate Ordered(rs: seq<Request>) {
    forall i, j :: 0 <= i < j < |rs| ==> rs[i].at <= rs[j].at
  }

  /** An id names one token (section 4.1.7 of RFC 7519). */
  ghost predicate IdsNameTokens(rs: seq<Request>) {
    forall i, j, id :: 0 <= i < |rs| && 0 <= j < |rs| && id != "" && Presents(rs[i], id) && Presents(rs[j], id) ==>
      TokenOf(rs[i]) == TokenOf(rs[j])
  }

  /** The entry outlives the token, but by less than a second, or lasts one second. */
  lemma ListedOutlives(b: Blacklist, t: Token, now: nat)
    requires t.jti != ""
    ensures t.jti in Listed(b, t, now) && Listed(b, t, now)[t.jti] >= t.exp * 1000
    ensures Listed(b, t, now)[t.jti] < Max(t.exp, now / 1000 + 1) * 1000 + 1000
    ensures forall id :: id != t.jti ==> (id in Listed(b, t, now) <==> id in b)
    ensures forall id :: id != t.jti && id in b ==> Listed(b, t, now)[id] == b[id]
  {}

  /** Which error a refused refresh gets: the first check that fails decides. */
  lemma RefusedFor(b: Blacklist, t: Token, now: nat, active: bool)
    ensures var v, listed := Verdict(b, t, now, active), t.jti != "" && t.jti in b && now < b[t.jti];
        && (v == Some(BadToken) <==> !t.genuine || t.exp * 1000 <= now)
        && (v == Some(WrongKind) <==> t.genuine && now < t.exp * 1000 && t.kind == Access)
        && (v == Some(Revoked) <==> t.genuine && now < t.exp * 1000 && t.kind == Refresh && listed)
        && (v == Some(NoUser) <==> t.genuine && now < t.exp * 1000 && t.kind == Refresh && !listed && !active)
  {}

  /** Every used-up id is listed, until its token's own expiry at least. */
  lemma {:induction false} UsedIsListed(rs: seq<Request>, i: nat)
    requires IdsNameTokens(rs) && i < |rs|
    requires Used(rs, i) && TokenOf(rs[i]).value.jti != ""
    ensures var t := TokenOf(rs[i]).value;
        t.jti in Run(rs) && Run(rs)[t.jti] >= t.exp * 1000
  {
    var front, r := rs[..|rs| - 1], rs[|rs| - 1];
    var t := TokenOf(rs[i]).value;
    if i == |rs| - 1 {
      ListedOutlives(Run(front), t, r.at);
    } else {
      assert front[..i] == rs[..i];
      UsedIsListed(front, i);
      if Consumes(Run(front), r) && Presents(r, t.jti) {
        assert Presents(rs[i], t.jti);
        ListedOutlives(Run(front), t, r.at);
      }
    }
  }

  ghost predicate UsedBefore(rs: seq<Request>, i: nat, jti: string)
    requires i <= |rs|
  {
    exists j :: 0 <= j < i && Used(rs, j) && Presents(rs[j], jti)
  }

  /** Only used-up ids are listed. */
  lemma {:induction false} ListedIsUsed(rs: seq<Request>, n: nat, jti: string)
    requires n <= |rs|
    ensures jti in Run(rs[..n]) ==> UsedBefore(rs, n, jti)
  {
    if n > 0 {
      ListedIsUsed(rs, n - 1, jti);
      assert rs[..n][..n - 1] == rs[..n - 1];
      assert jti in Run(rs[..n]) && jti !in Run(rs[..n - 1]) ==> Used(rs, n - 1) && Presents(rs[n - 1], jti);
    }
  }

  /** Exactly when a refresh is granted: the token is a genuine, unexpired refresh token of an active user, and either
      has no id or one never used up by an earlier refresh or logout. So an id is good for one refresh at most, and
      for none after a logout; a token without an id, which `create_token` never makes, is good until it expires. */
  lemma SingleUse(rs: seq<Request>, i: nat)
    requires Ordered(rs) && IdsNameTokens(rs)
    requires i < |rs| && rs[i].RefreshCall?
    ensures var t := rs[i].token;
        Used(rs, i) <==>
          && Decodes(t, rs[i].at) && t.kind == Refresh && rs[i].active
          && (t.jti == "" || !UsedBefore(rs, i, t.jti))
  {
    var t := rs[i].token;
    if t.jti == "" {
    } else if UsedBefore(rs, i, t.jti) {
      var j :| 0 <= j < i && Used(rs, j) && Presents(rs[j], t.jti);
      assert rs[..i][..j] == rs[..j];
      assert Presents(rs[i], t.jti);
      UsedIsListed(rs[..i], j);
    } else {
      ListedIsUsed(rs, i, t.jti);
    }
  }

  /** No second refresh, and none after a logout that saw a live token. */
  lemma NeverTwice(rs: seq<Request>, i: nat, j: nat)
    requires Ordered(rs) && IdsNameTokens(rs)
    requires i < j < |rs| && Used(rs, i) && TokenOf(rs[i]).value.jti != ""
    requires rs[j].RefreshCall? && rs[j].token == TokenOf(rs[i]).value
    ensures !Used(rs, j)
  {
    SingleUse(rs, j);
    assert Presents(rs[i], rs[j].token.jti);
  }

  /** In particular not after a logout with the token while it was live. */
  lemma LogoutEndsSession(rs: seq<Request>, i: nat, j: nat, t: Token)
    requires Ordered(rs) && IdsNameTokens(rs) && i < j < |rs|
    requires rs[i] == LogoutCall(Some(t), rs[i].at) && t.genuine && rs[i].at < t.exp * 1000 && t.jti != ""
    requires rs[j].RefreshCall? && rs[j].token == t
    ensures !Used(rs, j)
  {
    NeverTwice(rs, i, j);
  }

  /** The pair of an accepted refresh carries the session on: as long as its ids are fresh, its refresh token is good
      for one refresh until it expires, and its access token for none. */
  lemma RotationContinues(rs: seq<Request>, pair: Pair, sub: string, accessId: string, refreshId: string, now: nat,
                          accessMinutes: nat, refreshDays: nat, later: nat)
    requires Ordered(rs) && IdsNameTokens(rs)
    requires pair == Issue(sub, accessId, refreshId, now, accessMinutes, refreshDays)
    requires accessId != "" && refreshId != "" && accessId != refreshId
    requires forall i :: 0 <= i < |rs| ==>
        !Presents(rs[i], refreshId) && !Presents(rs[i], accessId) && rs[i].at <= later
    ensures var next := rs + [RefreshCall(pair.refresh, later, true)];
        Used(next, |rs|) <==> later < pair.refresh.exp * 1000
    ensures pair.access.sub == pair.refresh.sub == sub
    ensures now + accessMinutes * 60_000 - 1000 < pair.access.exp * 1000 <= now + accessMinutes * 60_000
    ensures now + refreshDays * 86_400_000 - 1000 < pair.refresh.exp * 1000 <= now + refreshDays * 86_400_000
    ensures !Used(rs + [RefreshCall(pair.access, later, true)], |rs|)
    ensures later < pair.access.exp * 1000 ==> Verdict(Run(rs), pair.access, later, true) == Some(WrongKind)
  {
    Fresh(rs, RefreshCall(pair.refresh, later, true));
    Fresh(rs, RefreshCall(pair.access, later, true));
    SingleUse(rs + [RefreshCall(pair.refresh, later, true)], |rs|);
    SingleUse(rs + [RefreshCall(pair.access, later, true)], |rs|);
  }

  lemma Fresh(rs: seq<Request>, r: Request)
    requires Ordered(rs) && IdsNameTokens(rs) && r.RefreshCall?
    requires forall i :: 0 <= i < |rs| ==> !Presents(rs[i], r.token.jti) && rs[i].at <= r.at
    ensures Ordered(rs + [r]) && IdsNameTokens(rs + [r]) && !UsedBefore(rs + [r], |rs|, r.token.jti)
  {
    var next := rs + [r];
    assert forall i :: 0 <= i < |rs| ==> next[i] == rs[i];
    assert forall i, id :: 0 <= i < |rs| && Presents(next[|rs|], id) ==> !Presents(next[i], id);
  }
}
