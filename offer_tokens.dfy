/**
 * The one-time offer-token flow of the backend: the in-memory store of
 * tokens, issuance for the signed-in user, and redemption when the offer
 * provider redirects the browser back.
 *
 * The clock (`Date.now()`), the random token (`crypto.randomBytes`) and the
 * outcome of `req.session.save` are parameters of the operations.
 */
module OfferTokens {
  import opened JsText

  /** How long an issued token stays redeemable, in milliseconds. */
  const OFFER_TOKEN_TTL_MS: int := 15 * 60 * 1000

  /** `crypto.randomBytes(32).toString("hex")` has two hex digits per byte. */
  const TOKEN_HEX_LENGTH: nat := 64

  predicate IsLowerHex(c: char)
  {
    '0' <= c <= '9' || 'a' <= c <= 'f'
  }

  /** The shape of every token the backend hands out. */
  predicate IsTokenString(t: string)
  {
    |t| == TOKEN_HEX_LENGTH && forall i :: 0 <= i < |t| ==> IsLowerHex(t[i])
  }

  /** The value stored per token: `{ userId, used, createdAt }`. */
  datatype TokenRecord = TokenRecord(userId: string, used: bool, createdAt: int)

  /** The `offerTokens` map, keyed by token string. */
  type Store = map<string, TokenRecord>

  /** What the session tells a handler about its caller: not signed in
      (`req.isAuthenticated()` is false), or signed in with
      `req.user && req.user.id`, where the empty string stands for a missing
      or empty id (every falsy value). */
  datatype Caller = Anonymous | SignedIn(userId: string)

  predicate HasUserId(c: Caller)
  {
    c.SignedIn? && c.userId != ""
  }

  /** Why a redemption was refused. The handler never reports it: every
      reason leads to the same redirect. */
  datatype Reason =
    | MissingToken      // no token, or not a non-empty string
    | NotAuthenticated  // no signed-in session
    | NoUserId          // signed in but the user has no id
    | UnknownToken      // never issued (or lost on restart)
    | AlreadyUsed
    | WrongOwner        // issued to another user
    | Expired           // older than the TTL

  datatype Verdict = Accept(key: string) | Reject(reason: Reason)

  /** Every condition a redemption must meet, in no particular order. */
  predicate Redeemable(store: Store, token: JsValue, caller: Caller, now: int)
  {
    && IsNonEmptyString(token)
    && HasUserId(caller)
    && token.s in store
    && !store[token.s].used
    && store[token.s].userId == caller.userId
    && now - store[token.s].createdAt <= OFFER_TOKEN_TTL_MS
  }

  /** The chain of checks `handleOfferComplete` runs before it changes
      anything. The checks run in a fixed order and the first one that fails
      decides the reason. */
  function Check(store: Store, token: JsValue, caller: Caller, now: int): (v: Verdict)
    ensures v.Accept? <==> Redeemable(store, token, caller, now)
    ensures v.Accept? ==> token == JsString(v.key)
    ensures v == Reject(MissingToken) <==> !IsNonEmptyString(token)
    ensures v == Reject(NotAuthenticated) <==> IsNonEmptyString(token) && caller.Anonymous?
    ensures v == Reject(NoUserId) <==> IsNonEmptyString(token) && caller == SignedIn("")
    ensures v == Reject(UnknownToken) <==>
      IsNonEmptyString(token) && HasUserId(caller) && token.s !in store
    ensures v == Reject(AlreadyUsed) <==>
      IsNonEmptyString(token) && HasUserId(caller) && token.s in store && store[token.s].used
    ensures v == Reject(WrongOwner) <==>
      IsNonEmptyString(token) && HasUserId(caller) && token.s in store && !store[token.s].used
      && store[token.s].userId != caller.userId
    ensures v == Reject(Expired) <==>
      IsNonEmptyString(token) && HasUserId(caller) && token.s in store && !store[token.s].used
      && store[token.s].userId == caller.userId
      && now - store[token.s].createdAt > OFFER_TOKEN_TTL_MS
  {
    if !IsNonEmptyString(token) then Reject(MissingToken)
    else if caller.Anonymous? then Reject(NotAuthenticated)
    else if caller.userId == "" then Reject(NoUserId)
    else if token.s !in store then Reject(UnknownToken)
    else
      var record := store[token.s];
      if record.used then Reject(AlreadyUsed)
      else if record.userId != caller.userId then Reject(WrongOwner)
      else if now - record.createdAt > OFFER_TOKEN_TTL_MS then Reject(Expired)
      else Accept(token.s)
  }

  /** `record.used = true` on the record of `key`. */
  function Consume(store: Store, key: string): (s: Store)
    requires key in store
    ensures s.Keys == store.Keys
    ensures s[key].used
    ensures s[key].userId == store[key].userId && s[key].createdAt == store[key].createdAt
    ensures forall k :: k in store && k != key ==> s[k] == store[k]
  {
    store[key := store[key].(used := true)]
  }

  /** A redemption's effect on the store, with its verdict. */
  function Redeem(store: Store, token: JsValue, caller: Caller, now: int): (r: (Store, Verdict))
    ensures r.1 == Check(store, token, caller, now)
    ensures r.1.Reject? ==> r.0 == store
    ensures r.1.Accept? ==> r.1.key in store && r.0 == Consume(store, r.1.key)
  {
    var v := Check(store, token, caller, now);
    if v.Accept? then (Consume(store, v.key), v) else (store, v)
  }

  /** The reply of `POST /api/create-offer-token`: 401 `Unauthorized`, or
      200 with the token. */
  datatype IssueReply = Unauthorized | TokenIssued(token: string)

  /** Issuance: a caller without a user id gets 401 and the store is left
      alone; otherwise the new token is stored, unused, owned by the caller
      and created now. `Map.set` overwrites an existing key. */
  function Issue(store: Store, caller: Caller, newToken: string, now: int): (r: (Store, IssueReply))
    ensures r.1 == Unauthorized <==> !HasUserId(caller)
    ensures r.1 == Unauthorized ==> r.0 == store
    ensures r.1.TokenIssued? ==>
      && r.1.token == newToken
      && r.0.Keys == store.Keys + {newToken}
      && r.0[newToken] == TokenRecord(caller.userId, false, now)
      && (forall k :: k in store && k != newToken ==> r.0[k] == store[k])
  {
    if !HasUserId(caller) then (store, Unauthorized)
    else (store[newToken := TokenRecord(caller.userId, false, now)], TokenIssued(newToken))
  }

  /** A token its owner has just received is redeemable by that owner for
      the whole TTL and by nobody else. */
  lemma IssuedTokenRedeemableByOwner(store: Store, caller: Caller, newToken: string, now: int, later: int, other: Caller)
    requires HasUserId(caller) && newToken != ""
    requires now <= later <= now + OFFER_TOKEN_TTL_MS
    requires HasUserId(other) && other != caller
    ensures var s := Issue(store, caller, newToken, now).0;
      && Check(s, JsString(newToken), caller, later) == Accept(newToken)
      && Check(s, JsString(newToken), other, later) == Reject(WrongOwner)
  {
  }

  /** Single use: once a redemption has consumed a token, every later
      redemption of it fails, and it fails at the `used` check whenever the
      caller gets that far. */
  lemma SecondRedemptionRejected(store: Store, token: JsValue, caller: Caller, now: int,
                                 caller2: Caller, now2: int)
    requires Check(store, token, caller, now).Accept?
    ensures var s := Redeem(store, token, caller, now).0;
      && Check(s, token, caller2, now2).Reject?
      && (HasUserId(caller2) ==> Check(s, token, caller2, now2) == Reject(AlreadyUsed))
  {
  }

  /** Owner binding: a valid, unused, unexpired token redeemed by another
      signed-in user is refused as `WrongOwner`, and nothing changes. */
  lemma OtherUserRejected(store: Store, key: string, caller: Caller, now: int)
    requires key != "" && key in store && !store[key].used
    requires now - store[key].createdAt <= OFFER_TOKEN_TTL_MS
    requires HasUserId(caller) && caller.userId != store[key].userId
    ensures Redeem(store, JsString(key), caller, now) == (store, Reject(WrongOwner))
  {
  }

  /** Without a signed-in session nothing is ever redeemed. */
  lemma AnonymousNeverRedeems(store: Store, token: JsValue, now: int)
    ensures Redeem(store, token, Anonymous, now).1.Reject?
    ensures Redeem(store, token, Anonymous, now).0 == store
  {
  }

  /** The TTL boundary: a token exactly `OFFER_TOKEN_TTL_MS` old is
      accepted, one millisecond older is refused as `Expired`. */
  lemma TtlBoundary(store: Store, key: string, caller: Caller)
    requires key != "" && key in store && !store[key].used
    requires HasUserId(caller) && store[key].userId == caller.userId
    ensures var t := store[key].createdAt;
      && Check(store, JsString(key), caller, t + OFFER_TOKEN_TTL_MS) == Accept(key)
      && Check(store, JsString(key), caller, t + OFFER_TOKEN_TTL_MS + 1) == Reject(Expired)
  {
  }

  // ---------------------------------------------------------------------
  // Runs of requests against one store

  /** One request to either endpoint, with its clock reading. */
  datatype Request =
    | CreateToken(caller: Caller, newToken: string, at: int)
    | CompleteOffer(token: JsValue, who: Caller, when: int)

  /** The store after one request, and the token it redeemed if any. */
  function Step(store: Store, req: Request): (Store, Option<string>)
  {
    match req
    case CreateToken(c, newToken, at) => (Issue(store, c, newToken, at).0, None)
    case CompleteOffer(t, c, when) =>
      var r := Redeem(store, t, c, when);
      if r.1.Accept? then (r.0, Some(r.1.key)) else (r.0, None)
  }

  /** The store after a run of requests, and the tokens redeemed, in order. */
  function Run(store: Store, reqs: seq<Request>): (Store, seq<string>)
    decreases |reqs|
  {
    if reqs == [] then (store, [])
    else
      var (s1, a1) := Step(store, reqs[0]);
      var (s2, a2) := Run(s1, reqs[1..]);
      (s2, (if a1.Some? then [a1.value] else []) + a2)
  }

  /** Every token issued during the run is new at the moment it is issued,
      as 256 random bits are with overwhelming probability (the code does not
      check it). */
  predicate FreshIssues(store: Store, reqs: seq<Request>)
    decreases |reqs|
  {
    reqs == [] ||
    ((reqs[0].CreateToken? ==> reqs[0].newToken !in store) && FreshIssues(Step(store, reqs[0]).0, reqs[1..]))
  }

  /** `used` only ever goes from false to true, and no token disappears. */
  lemma {:induction false} UsedIsMonotonic(store: Store, reqs: seq<Request>)
    requires FreshIssues(store, reqs)
    ensures store.Keys <= Run(store, reqs).0.Keys
    ensures forall k :: k in store && store[k].used ==> Run(store, reqs).0[k].used
    decreases |reqs|
  {
    if reqs != [] {
      var s1 := Step(store, reqs[0]).0;
      UsedIsMonotonic(s1, reqs[1..]);
    }
  }

  /** Single use over any run in which issued tokens are newToken: no token is
      redeemed twice, a redeemed token was unused (or not yet issued) at the
      start, and it is marked used at the end. */
  lemma {:induction false} EachTokenRedeemedAtMostOnce(store: Store, reqs: seq<Request>)
    requires FreshIssues(store, reqs)
    ensures var (final, redeemed) := Run(store, reqs);
      && (forall i, j :: 0 <= i < j < |redeemed| ==> redeemed[i] != redeemed[j])
      && (forall i :: 0 <= i < |redeemed| ==> redeemed[i] !in store || !store[redeemed[i]].used)
      && (forall i :: 0 <= i < |redeemed| ==> redeemed[i] in final && final[redeemed[i]].used)
    decreases |reqs|
  {
    if reqs != [] {
      var (s1, a1) := Step(store, reqs[0]);
      var (final, a2) := Run(s1, reqs[1..]);
      EachTokenRedeemedAtMostOnce(s1, reqs[1..]);
      UsedIsMonotonic(s1, reqs[1..]);
      var redeemed := Run(store, reqs).1;
      assert redeemed == (if a1.Some? then [a1.value] else []) + a2;
      if a1.Some? {
        var k := a1.value;
        assert k in s1 && s1[k].used;
        forall j | 0 <= j < |a2| ensures a2[j] != k {
          assert a2[j] !in s1 || !s1[a2[j]].used;
        }
        forall i | 0 <= i < |redeemed| ensures redeemed[i] !in store || !store[redeemed[i]].used {
          if i > 0 {
            assert redeemed[i] == a2[i - 1];
          }
        }
      } else {
        assert s1.Keys >= store.Keys;
        assert forall k :: k in store ==> k in s1 && (s1[k].used == store[k].used);
      }
    }
  }

  // ---------------------------------------------------------------------
  // The handlers, over the shared map and the caller's session

  /** The part of `req.session` the flow writes. */
  class Session {
    var offerCompleted: bool

    constructor ()
      ensures !offerCompleted
    {
      offerCompleted := false;
    }
  }

  /** The answer of `GET /auth/me`: 401 with no user, or the user with the
      session's offer flag. */
  datatype MeReply = NoUser | UserView(id: string, offerCompleted: bool)

  /** `GET /auth/me`: only a signed-in caller sees a user, and the user's
      `offerCompleted` is exactly the session flag. */
  function AuthMe(caller: Caller, session: Session): (r: MeReply)
    reads session
    ensures r.UserView? <==> caller.SignedIn?
    ensures r.UserView? ==> r.id == caller.userId && r.offerCompleted == session.offerCompleted
  {
    if caller.Anonymous? then NoUser else UserView(caller.userId, session.offerCompleted)
  }

  /** The backend's token store (`offerTokens`), with the configured
      `FRONTEND_URL` that its redirects point to. */
  class OfferServer {
    const frontendUrl: string
    var offerTokens: Store

    /** Every stored token has the issued shape and a real owner; so only a
        64-hex-digit token is ever accepted. */
    ghost predicate Valid()
      reads this
    {
      forall k :: k in offerTokens ==> IsTokenString(k) && offerTokens[k].userId != ""
    }

    constructor (frontendUrl: string)
      ensures Valid()
      ensures this.frontendUrl == frontendUrl && offerTokens == map[]
    {
      this.frontendUrl := frontendUrl;
      offerTokens := map[];
    }

    /** Where every refused redemption is sent, whatever the reason: a page
        of the frontend, distinct from the success page. */
    function ErrorUrl(): (r: string)
      ensures StartsWith(r, frontendUrl) && r != SuccessUrl()
    {
      frontendUrl + "/?offer_error=1"
    }

    /** Where a completed offer is sent: a page of the frontend. */
    function SuccessUrl(): (r: string)
      ensures StartsWith(r, frontendUrl)
    {
      frontendUrl + "/?offer_complete=1"
    }

    /** `POST /api/create-offer-token`; `newToken` is the random token. */
    method CreateOfferToken(caller: Caller, newToken: string, now: int) returns (reply: IssueReply)
      requires Valid() && IsTokenString(newToken)
      modifies this
      ensures Valid()
      ensures (offerTokens, reply) == Issue(old(offerTokens), caller, newToken, now)
    {
      if caller.Anonymous? {
        return Unauthorized;
      }
      var userId := caller.userId;
      if userId == "" {
        return Unauthorized;
      }
      offerTokens := offerTokens[newToken := TokenRecord(userId, false, now)];
      reply := TokenIssued(newToken);
    }

    /** `handleOfferComplete`: `saveOk` is whether `req.session.save`
        succeeded. A refusal changes nothing; a success consumes the token
        and sets the session flag before the save, so a failed save still
        spends the token. */
    method HandleOfferComplete(token: JsValue, caller: Caller, now: int, session: Session, saveOk: bool)
      returns (redirect: string)
      requires Valid()
      modifies this, session
      ensures Valid()
      ensures var v := Check(old(offerTokens), token, caller, now);
        && offerTokens == Redeem(old(offerTokens), token, caller, now).0
        && session.offerCompleted == (old(session.offerCompleted) || v.Accept?)
        && redirect == (if v.Accept? && saveOk then SuccessUrl() else ErrorUrl())
        && (v.Accept? ==> IsTokenString(v.key) && old(offerTokens)[v.key].userId != "")
    {
      var errorUrl := ErrorUrl();
      if !token.JsString? || token.s == "" {
        return errorUrl;
      }
      if caller.Anonymous? {
        return errorUrl;
      }
      var userId := caller.userId;
      if userId == "" {
        return errorUrl;
      }
      if token.s !in offerTokens {
        return errorUrl;
      }
      var record := offerTokens[token.s];
      if record.used {
        return errorUrl;
      }
      if record.userId != userId {
        return errorUrl;
      }
      if now - record.createdAt > OFFER_TOKEN_TTL_MS {
        return errorUrl;
      }
      offerTokens := offerTokens[token.s := record.(used := true)];
      session.offerCompleted := true;
      if !saveOk {
        return errorUrl;
      }
      redirect := SuccessUrl();
    }
  }

  /** The life of three tokens: redeemed once then refused, redeemed by the
      wrong user, and redeemed too late. */
  method Scenarios(t1: string, t2: string, t3: string, t0: int)
    requires IsTokenString(t1) && IsTokenString(t2) && IsTokenString(t3)
    requires t1 != t2 && t2 != t3 && t1 != t3
  {
    var minute := 60 * 1000;
    var u1, u2 := SignedIn("u1"), SignedIn("u2");
    var server := new OfferServer("https://example.test");
    var s1 := new Session();
    var s2 := new Session();

    var reply := server.CreateOfferToken(u1, t1, t0);
    assert reply == TokenIssued(t1);
    var url := server.HandleOfferComplete(JsString(t1), u1, t0 + minute, s1, true);
    assert url == server.SuccessUrl() && s1.offerCompleted;
    assert AuthMe(u1, s1) == UserView("u1", true);
    url := server.HandleOfferComplete(JsString(t1), u1, t0 + 2 * minute, s1, true);
    assert url == server.ErrorUrl();

    reply := server.CreateOfferToken(u1, t2, t0);
    url := server.HandleOfferComplete(JsString(t2), u2, t0 + minute, s2, true);
    assert url == server.ErrorUrl() && !s2.offerCompleted;
    assert AuthMe(u2, s2) == UserView("u2", false);

    reply := server.CreateOfferToken(u1, t3, t0);
    url := server.HandleOfferComplete(JsString(t3), u1, t0 + 16 * minute, s1, true);
    assert url == server.ErrorUrl();
    assert !server.offerTokens[t3].used;

    reply := server.CreateOfferToken(Anonymous, t3, t0);
    assert reply == Unauthorized;
  }
}
