/** Invitation tokens and registration, with any number of redeemers at once. */
module Invites {
  import opened VersionedStore

  type Time = int

  datatype Invite = Invite(token: string, email: string, expiresAt: Time)

  /** Only the first twelve characters of a token go into its Secret's name. */
  function SecretName(token: string): string {
    "invite-" + if |token| < 12 then token else token[..12]
  }

  predicate IsLowerAlnum(c: char) {
    'a' <= c <= 'z' || '0' <= c <= '9'
  }

  const RESERVED := {"admin", "system", "operator", "default", "kube"}

  /** A DNS label of at most 63 characters that is not reserved. */
  predicate IsValidUsername(name: string) {
    && 0 < |name| <= 63
    && IsLowerAlnum(name[0]) && IsLowerAlnum(name[|name| - 1])
    && (forall i :: 0 <= i < |name| ==> IsLowerAlnum(name[i]) || name[i] == '-')
    && name !in RESERVED
  }

  /** How far one registration request has come. `Spend` and `Bury` are about to
      delete the Secret they found, the first as redeemed, the second as expired;
      `Redeemed` refers to an entry of the log. */
  datatype Stage =
    | Found(invite: Invite)
    | Spend(invite: Invite, judgedAt: Time)
    | Bury(invite: Invite)
    | Redeemed(entry: nat)

  datatype Redemption = Redemption(invite: Invite, judgedAt: Time)

  datatype Registration = Registration(username: string, email: string, entry: nat)

  /** `issued`, `buried`, `redeemed` and `registered` are logs of what happened. */
  datatype World = World(
    secrets: map<string, Invite>,
    users: map<string, string>,
    requests: map<nat, Stage>,
    clock: Time,
    issued: set<Invite>,
    buried: set<string>,
    redeemed: seq<Redemption>,
    registered: seq<Registration>)

  const EMPTY := World(map[], map[], map[], 0, {}, {}, [], [])

  datatype Event =
    | Tick(seconds: nat)
    | Issue(invite: Invite)
    | Look(id: nat, token: string)
    | Judge(id: nat)
    | Delete(id: nat)
    | Register(id: nat, username: string)
    | DeleteUser(username: string)

  /** The invite a List shows under this token. Names are functions of tokens, so
      at most one Secret carries a given token. */
  function Matching(secrets: map<string, Invite>, token: string): Option<Invite> {
    var name := SecretName(token);
    if name in secrets && secrets[name].token == token then Some(secrets[name]) else None
  }

  function Leave(w: World, id: nat): World {
    w.(requests := w.requests - {id})
  }

  /** The Secret is deleted by name, whatever it holds by then. */
  function DeleteFound(w: World, id: nat, stage: Stage): World {
    match stage
    case Bury(invite) =>
      var name := SecretName(invite.token);
      Leave(w.(secrets := w.secrets - {name}, buried := w.buried + {name}), id)
    case Spend(invite, judgedAt) =>
      var name := SecretName(invite.token);
      if name !in w.secrets then Leave(w, id)
      else
        w.(secrets := w.secrets - {name},
           redeemed := w.redeemed + [Redemption(invite, judgedAt)],
           requests := w.requests[id := Redeemed(|w.redeemed|)])
    case _ => w
  }

  function Apply(w: World, e: Event): World {
    match e
    case Tick(seconds) => w.(clock := w.clock + seconds)
    case Issue(invite) =>
      var name := SecretName(invite.token);
      if name in w.secrets then w
      else w.(secrets := w.secrets[name := invite], issued := w.issued + {invite})
    case Look(id, token) =>
      var found := Matching(w.secrets, token);
      if id in w.requests || found.None? then w else w.(requests := w.requests[id := Found(found.value)])
    case Judge(id) =>
      if id !in w.requests || !w.requests[id].Found? then w
      else
        var invite := w.requests[id].invite;
        w.(requests := w.requests[id := if w.clock > invite.expiresAt then Bury(invite) else Spend(invite, w.clock)])
    case Delete(id) => if id in w.requests then DeleteFound(w, id, w.requests[id]) else w
    case Register(id, username) =>
      if id !in w.requests || !w.requests[id].Redeemed? then w
      else
        var entry := w.requests[id].entry;
        if !IsValidUsername(username) || username in w.users || entry >= |w.redeemed| then Leave(w, id)
        else
          var email := w.redeemed[entry].invite.email;
          Leave(w.(users := w.users[username := email],
                   registered := w.registered + [Registration(username, email, entry)]), id)
    case DeleteUser(username) => w.(users := w.users - {username})
  }

  function Run(w: World, events: seq<Event>): World {
    if events == [] then w else Apply(Run(w, events[..|events| - 1]), events[|events| - 1])
  }

  /** No Secret name is issued a second time once the first is gone. While it is
      stored, a second issue is refused and does no harm. */
  predicate IsFreshIssue(w: World, e: Event) {
    e.Issue? && SecretName(e.invite.token) !in w.secrets ==>
      forall i <- w.issued :: SecretName(i.token) != SecretName(e.invite.token)
  }

  predicate IsFreshRun(events: seq<Event>) {
    events == [] ||
    (IsFreshRun(events[..|events| - 1]) && IsFreshIssue(Run(EMPTY, events[..|events| - 1]), events[|events| - 1]))
  }

  // ------------------------------------------------------------- invariants

  ghost predicate StageOk(w: World, s: Stage) {
    match s
    case Found(invite) => invite in w.issued
    case Spend(invite, judgedAt) => invite in w.issued && judgedAt <= invite.expiresAt
    case Bury(invite) => invite in w.issued
    case Redeemed(entry) => entry < |w.redeemed| && forall r <- w.registered :: r.entry != entry
  }

  ghost predicate SecretsOk(w: World) {
    forall n <- w.secrets :: w.secrets[n] in w.issued && SecretName(w.secrets[n].token) == n
  }

  ghost predicate RequestsOk(w: World) {
    && (forall id <- w.requests :: StageOk(w, w.requests[id]))
    && (forall id <- w.requests, id' <- w.requests ::
          w.requests[id].Redeemed? && w.requests[id] == w.requests[id'] ==> id == id')
  }

  ghost predicate RedeemedOk(w: World) {
    forall i :: 0 <= i < |w.redeemed| ==>
      w.redeemed[i].invite in w.issued && w.redeemed[i].judgedAt <= w.redeemed[i].invite.expiresAt
  }

  ghost predicate RegisteredOk(w: World) {
    && (forall i :: 0 <= i < |w.registered| ==>
          && w.registered[i].entry < |w.redeemed|
          && w.registered[i].email == w.redeemed[w.registered[i].entry].invite.email)
    && (forall i, j :: 0 <= i < j < |w.registered| ==> w.registered[i].entry != w.registered[j].entry)
  }

  /** What needs no assumption about names: entries of the log are used once, by
      one request or one registration, and emails come from the log. */
  ghost predicate LogOk(w: World) {
    SecretsOk(w) && RequestsOk(w) && RedeemedOk(w) && RegisteredOk(w)
  }

  lemma DeleteKeepsLog(w: World, id: nat)
    requires LogOk(w) && id in w.requests
    ensures LogOk(DeleteFound(w, id, w.requests[id]))
  {
    var w' := DeleteFound(w, id, w.requests[id]);
    forall id' <- w'.requests ensures StageOk(w', w'.requests[id']) {
      if id' != id {
        assert StageOk(w, w.requests[id']);
      }
    }
    assert StageOk(w, w.requests[id]);
  }

  lemma RegisterKeepsLog(w: World, id: nat, username: string)
    requires LogOk(w)
    ensures LogOk(Apply(w, Register(id, username)))
  {
    var w' := Apply(w, Register(id, username));
    if w' != w {
      assert StageOk(w, w.requests[id]);
      forall id' <- w'.requests ensures StageOk(w', w'.requests[id']) {
        assert StageOk(w, w.requests[id']);
      }
    }
  }

  lemma OtherKeepsLog(w: World, e: Event)
    requires LogOk(w) && !e.Delete? && !e.Register?
    ensures LogOk(Apply(w, e))
  {
    var w' := Apply(w, e);
    forall id <- w'.requests ensures StageOk(w', w'.requests[id]) {
      if id in w.requests {
        assert StageOk(w, w.requests[id]);
      }
    }
  }

  lemma ApplyKeepsLog(w: World, e: Event)
    requires LogOk(w)
    ensures LogOk(Apply(w, e))
  {
    match e {
      case Delete(id) => if id in w.requests { DeleteKeepsLog(w, id); }
      case Register(id, username) => RegisterKeepsLog(w, id, username);
      case _ => OtherKeepsLog(w, e);
    }
  }

  ghost predicate AreDistinctNames(issued: set<Invite>) {
    forall i <- issued, j <- issued :: SecretName(i.token) == SecretName(j.token) ==> i == j
  }

  /** With distinct names: each name stands for one invite, and what was spent or
      buried is gone for good. */
  ghost predicate SpentOk(w: World) {
    && AreDistinctNames(w.issued)
    && (forall n <- w.buried :: n !in w.secrets && exists i <- w.issued :: SecretName(i.token) == n)
    && (forall i :: 0 <= i < |w.redeemed| ==> SecretName(w.redeemed[i].invite.token) !in w.secrets)
    && (forall i, j :: 0 <= i < j < |w.redeemed| ==>
          SecretName(w.redeemed[i].invite.token) != SecretName(w.redeemed[j].invite.token))
  }

  lemma BuryKeepsSpent(w: World, id: nat)
    requires LogOk(w) && SpentOk(w) && id in w.requests && w.requests[id].Bury?
    ensures SpentOk(DeleteFound(w, id, w.requests[id]))
  {
    assert StageOk(w, w.requests[id]);
  }

  lemma SpendKeepsSpent(w: World, id: nat)
    requires LogOk(w) && SpentOk(w) && id in w.requests && w.requests[id].Spend?
    ensures SpentOk(DeleteFound(w, id, w.requests[id]))
  {
    assert StageOk(w, w.requests[id]);
  }

  lemma IssueKeepsSpent(w: World, invite: Invite)
    requires LogOk(w) && SpentOk(w) && IsFreshIssue(w, Issue(invite))
    ensures SpentOk(Apply(w, Issue(invite)))
  {}

  lemma ApplyKeepsSpent(w: World, e: Event)
    requires LogOk(w) && SpentOk(w) && IsFreshIssue(w, e)
    ensures SpentOk(Apply(w, e))
  {
    match e {
      case Delete(id) =>
        if id in w.requests && w.requests[id].Bury? {
          BuryKeepsSpent(w, id);
        } else if id in w.requests && w.requests[id].Spend? {
          SpendKeepsSpent(w, id);
        }
      case Issue(invite) => IssueKeepsSpent(w, invite);
      case _ => OtherKeepsSpent(w, e);
    }
  }

  lemma OtherKeepsSpent(w: World, e: Event)
    requires SpentOk(w) && !e.Issue? && !e.Delete?
    ensures SpentOk(Apply(w, e))
  {
    var w' := Apply(w, e);
    assert w'.secrets == w.secrets && w'.issued == w.issued && w'.buried == w.buried && w'.redeemed == w.redeemed;
  }

  lemma {:induction false} RunKeepsLog(events: seq<Event>)
    ensures LogOk(Run(EMPTY, events))
    ensures IsFreshRun(events) ==> SpentOk(Run(EMPTY, events))
  {
    if events != [] {
      var before := events[..|events| - 1];
      RunKeepsLog(before);
      ApplyKeepsLog(Run(EMPTY, before), events[|events| - 1]);
      if IsFreshRun(events) {
        ApplyKeepsSpent(Run(EMPTY, before), events[|events| - 1]);
      }
    }
  }

  // --------------------------------------------------------------- theorems

  /** Each token yields at most one redemption, and each was judged in time. */
  lemma TokensAreSpentOnce(events: seq<Event>)
    requires IsFreshRun(events)
    ensures var log := Run(EMPTY, events).redeemed;
      && (forall i, j :: 0 <= i < j < |log| ==> log[i].invite.token != log[j].invite.token)
      && (forall r <- log :: r.judgedAt <= r.invite.expiresAt)
  {
    RunKeepsLog(events);
  }

  /** Users created by registration inject into the invites issued, and carry
      their invite's email. */
  lemma UsersInjectIntoInvites(events: seq<Event>)
    requires IsFreshRun(events)
    ensures var w := Run(EMPTY, events);
      && (forall r <- w.registered :: r.entry < |w.redeemed|)
      && (forall r <- w.registered ::
            w.redeemed[r.entry].invite in w.issued && r.email == w.redeemed[r.entry].invite.email)
      && (forall i, j :: 0 <= i < j < |w.registered| ==>
            w.redeemed[w.registered[i].entry].invite.token != w.redeemed[w.registered[j].entry].invite.token)
  {
    RunKeepsLog(events);
    var w := Run(EMPTY, events);
    forall i, j | 0 <= i < j < |w.registered|
      ensures w.redeemed[w.registered[i].entry].invite.token != w.redeemed[w.registered[j].entry].invite.token
    {
      assert w.registered[i] in w.registered && w.registered[j] in w.registered;
      var a, b := w.registered[i].entry, w.registered[j].entry;
      if a < b {
        assert SecretName(w.redeemed[a].invite.token) != SecretName(w.redeemed[b].invite.token);
      } else {
        assert SecretName(w.redeemed[b].invite.token) != SecretName(w.redeemed[a].invite.token);
      }
    }
  }

  /** Once some request has deleted an invite as expired, no request redeems it. */
  lemma BuriedInvitesAreNotRedeemed(events: seq<Event>, next: Event)
    requires IsFreshRun(events)
    ensures var w := Run(EMPTY, events);
      var w' := Apply(w, next);
      |w'.redeemed| > |w.redeemed| ==> SecretName(w'.redeemed[|w.redeemed|].invite.token) !in w.buried
  {
    RunKeepsLog(events);
  }

  // ------------------------------------------------------ two sharp corners

  /** A request that found the invite in time redeems it even when another
      request has already seen it expire, as long as its own delete comes first. */
  lemma SeenExpiredIsNotTooLate(w: World, a: nat, b: nat)
    requires a in w.requests && b in w.requests && w.requests[a].Spend? && w.requests[b] == Bury(w.requests[a].invite)
    ensures |Apply(w, Delete(a)).redeemed| == |w.redeemed| + 1 <==> SecretName(w.requests[a].invite.token) in w.secrets
  {}

  lemma RunAppend(w: World, events: seq<Event>, e: Event)
    ensures Run(w, events + [e]) == Apply(Run(w, events), e)
  {
    assert (events + [e])[..|events|] == events;
  }

  lemma SeenExpiredIsReachable(invite: Invite) returns (events: seq<Event>)
    requires 0 <= invite.expiresAt
    ensures IsFreshRun(events)
    ensures var w := Run(EMPTY, events);
      && w.requests == map[1 := Found(invite), 2 := Found(invite)][1 := Spend(invite, 0)][2 := Bury(invite)]
      && w.secrets == map[SecretName(invite.token) := invite]
  {
    events := FirstHolderIsReachable(invite);
    events := Wait(events, invite.expiresAt + 1);
    events := FreshAppend(events, Judge(2));
  }

  lemma FreshAppend(events: seq<Event>, e: Event) returns (longer: seq<Event>)
    requires IsFreshRun(events) && IsFreshIssue(Run(EMPTY, events), e)
    ensures IsFreshRun(longer) && Run(EMPTY, longer) == Apply(Run(EMPTY, events), e)
  {
    longer := events + [e];
    RunAppend(EMPTY, events, e);
    assert longer[..|events|] == events;
  }

  /** Two requests are about to spend one invite, whenever each judged it, and
      another invite is issued between their deletes: both redeem it if and only
      if its Secret is still there and the two invites share their Secret name. */
  lemma SharedPrefixSpendsTwice(w: World, a: nat, b: nat, other: Invite)
    requires a in w.requests && b in w.requests && a != b && w.requests[a].Spend? && w.requests[b].Spend?
    requires w.requests[a].invite == w.requests[b].invite
    ensures var w' := Apply(Apply(Apply(w, Delete(a)), Issue(other)), Delete(b));
      var invite := w.requests[a].invite;
      var first, second := Redemption(invite, w.requests[a].judgedAt), Redemption(invite, w.requests[b].judgedAt);
      w'.redeemed == w.redeemed + [first, second] <==>
        SecretName(invite.token) in w.secrets && SecretName(other.token) == SecretName(invite.token)
  {
    var invite := w.requests[a].invite;
    var first, second := Redemption(invite, w.requests[a].judgedAt), Redemption(invite, w.requests[b].judgedAt);
    assert w.redeemed + [first] + [second] == w.redeemed + [first, second];
    assert |w.redeemed + [first]| != |w.redeemed + [first, second]|;
    assert |w.redeemed| != |w.redeemed + [first, second]|;
  }

  lemma TwoFindersAreReachable(invite: Invite) returns (events: seq<Event>)
    ensures IsFreshRun(events)
    ensures var w := Run(EMPTY, events);
      && w.requests == map[1 := Found(invite), 2 := Found(invite)]
      && w.secrets == map[SecretName(invite.token) := invite]
      && w.redeemed == [] && w.clock == 0
  {
    events := [];
    events := FreshAppend(events, Issue(invite));
    events := FreshAppend(events, Look(1, invite.token));
    events := FreshAppend(events, Look(2, invite.token));
  }

  lemma Wait(events: seq<Event>, seconds: nat) returns (longer: seq<Event>)
    requires IsFreshRun(events)
    ensures IsFreshRun(longer)
    ensures var w := Run(EMPTY, events); Run(EMPTY, longer) == w.(clock := w.clock + seconds)
  {
    longer := FreshAppend(events, Tick(seconds));
  }

  lemma JudgeInTime(events: seq<Event>, id: nat, invite: Invite) returns (longer: seq<Event>)
    requires IsFreshRun(events)
    requires var w := Run(EMPTY, events); id in w.requests && w.requests[id] == Found(invite) && w.clock <= invite.expiresAt
    ensures IsFreshRun(longer)
    ensures var w := Run(EMPTY, events); Run(EMPTY, longer) == w.(requests := w.requests[id := Spend(invite, w.clock)])
  {
    longer := FreshAppend(events, Judge(id));
  }

  lemma FirstHolderIsReachable(invite: Invite) returns (events: seq<Event>)
    requires 0 <= invite.expiresAt
    ensures IsFreshRun(events)
    ensures var w := Run(EMPTY, events);
      && w.requests == map[1 := Found(invite), 2 := Found(invite)][1 := Spend(invite, 0)]
      && w.secrets == map[SecretName(invite.token) := invite]
      && w.redeemed == [] && w.clock == 0
  {
    events := TwoFindersAreReachable(invite);
    events := JudgeInTime(events, 1, invite);
  }

  /** Two requests come to hold one token, the second judging it any time later
      before it expires. */
  lemma TwoHoldersAreReachable(invite: Invite, later: nat) returns (events: seq<Event>)
    requires later <= invite.expiresAt
    ensures IsFreshRun(events)
    ensures var w := Run(EMPTY, events);
      && w.requests == map[1 := Found(invite), 2 := Found(invite)][1 := Spend(invite, 0)][2 := Spend(invite, later)]
      && w.secrets == map[SecretName(invite.token) := invite]
      && w.redeemed == []
  {
    events := FirstHolderIsReachable(invite);
    events := Wait(events, later);
    events := JudgeInTime(events, 2, invite);
  }

  /** A run from the empty store that spends one token twice, for every two
      invites that share a Secret name. */
  lemma TokenCanBeSpentTwice(invite: Invite, other: Invite, later: nat) returns (events: seq<Event>)
    requires later <= invite.expiresAt && SecretName(other.token) == SecretName(invite.token)
    ensures Run(EMPTY, events).redeemed == [Redemption(invite, 0), Redemption(invite, later)]
  {
    events := TwoHoldersAreReachable(invite, later);
    SharedPrefixSpendsTwice(Run(EMPTY, events), 1, 2, other);
    RunAppend(EMPTY, events, Delete(1));
    RunAppend(EMPTY, events + [Delete(1)], Issue(other));
    RunAppend(EMPTY, events + [Delete(1)] + [Issue(other)], Delete(2));
    events := events + [Delete(1)] + [Issue(other)] + [Delete(2)];
  }

  // ---------------------------------------------- the code, left undisturbed

  datatype Answer =
    | Granted(email: string)
    | MissingField
    | RegistrationDisabled
    | InvalidToken
    | InviteExpired
    | BadUsername
    | UsernameTaken

  /** The body of a registration request. */
  datatype Form = Form(username: string, email: string, password: string, inviteToken: string)

  predicate IsComplete(f: Form) {
    f.username != "" && f.email != "" && f.password != "" && f.inviteToken != ""
  }

  /** What reaches the redemption of the invite. */
  predicate IsAdmitted(f: Form, open: bool) {
    IsComplete(f) && open
  }

  /** A redemption, and a whole registration, with nobody else moving. */
  function Redeem(w: World, id: nat, token: string): World {
    Apply(Apply(Apply(w, Look(id, token)), Judge(id)), Delete(id))
  }

  function RegisterAlone(w: World, id: nat, token: string, username: string): World {
    Apply(Redeem(w, id, token), Register(id, username))
  }

  /** The invite service and the user store over their Secrets. */
  class AuthService {
    var secrets: map<string, Invite>
    var users: map<string, string>

    /** The store as a world in which nothing is in flight or logged. */
    ghost function View(now: Time): World
      reads this
    {
      World(secrets, users, map[], now, {}, {}, [], [])
    }

    ghost predicate Valid()
      reads this
    {
      forall n <- secrets :: SecretName(secrets[n].token) == n
    }

    /** The search through the listed Secrets. */
    method FindByToken(token: string) returns (found: Option<Invite>)
      requires Valid()
      ensures found == Matching(secrets, token)
    {
      var todo := secrets.Keys;
      while todo != {}
        invariant todo <= secrets.Keys
        invariant forall n <- secrets.Keys - todo :: secrets[n].token != token
      {
        var n :| n in todo;
        if secrets[n].token == token {
          return Some(secrets[n]);
        }
        todo := todo - {n};
      }
      found := None;
    }

    /** The invite is gone after every redemption that found it, granted or not. */
    method RedeemInvite(token: string, now: Time) returns (r: Answer)
      requires Valid()
      modifies this`secrets
      ensures Valid()
      ensures r != MissingField && r != RegistrationDisabled && r != BadUsername && r != UsernameTaken
      ensures var w := Redeem(old(View(now)), 0, token);
        && secrets == w.secrets && users == w.users
        && (r.Granted? <==> |w.redeemed| == 1) && (r.Granted? ==> r.email == w.redeemed[0].invite.email)
        && (r == InviteExpired <==> w.buried != {})
      ensures var found := Matching(old(secrets), token);
        && (found.None? ==> r == InvalidToken && secrets == old(secrets))
        && (found.Some? ==>
              && secrets == old(secrets) - {SecretName(token)}
              && r == if now > found.value.expiresAt then InviteExpired else Granted(found.value.email))
    {
      var matched := FindByToken(token);
      if matched.None? {
        return InvalidToken;
      }
      secrets := secrets - {SecretName(matched.value.token)};
      if now > matched.value.expiresAt {
        return InviteExpired;
      }
      r := Granted(matched.value.email);
    }

    /** A registration creates at most the one user it names, with the invite's
        email and not the form's. An incomplete form and a closed registration
        are refused with the invite untouched; a refusal of the username comes
        when the invite is spent already. */
    method Register(f: Form, open: bool, now: Time) returns (r: Answer)
      requires Valid()
      modifies this
      ensures Valid()
      ensures IsAdmitted(f, open) ==>
        var w := RegisterAlone(old(View(now)), 0, f.inviteToken, f.username);
        && secrets == w.secrets && users == w.users
        && (r.Granted? <==> |w.registered| == 1) && (r.Granted? ==> r.email == w.registered[0].email)
      ensures r == MissingField <==> !IsComplete(f)
      ensures r == RegistrationDisabled <==> IsComplete(f) && !open
      ensures r.Granted? <==>
        && IsAdmitted(f, open)
        && Matching(old(secrets), f.inviteToken).Some? && now <= Matching(old(secrets), f.inviteToken).value.expiresAt
        && IsValidUsername(f.username) && f.username !in old(users)
      ensures r.Granted? ==> r.email == Matching(old(secrets), f.inviteToken).value.email
      ensures users == if r.Granted? then old(users)[f.username := r.email] else old(users)
      ensures secrets == if IsAdmitted(f, open) && Matching(old(secrets), f.inviteToken).Some?
        then old(secrets) - {SecretName(f.inviteToken)} else old(secrets)
    {
      if f.username == "" || f.email == "" || f.password == "" || f.inviteToken == "" {
        return MissingField;
      }
      if !open {
        return RegistrationDisabled;
      }
      r := RedeemInvite(f.inviteToken, now);
      if !r.Granted? {
        return;
      }
      if !IsValidUsername(f.username) {
        return BadUsername;
      }
      if f.username in users {
        return UsernameTaken;
      }
      users := users[f.username := r.email];
    }
  }
}
