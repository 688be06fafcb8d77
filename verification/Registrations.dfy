/** The users that registrations leave behind. */
module Registrations {
  import opened VersionedStore
  import opened Invites

  /** A DNS label of at most 63 characters, and not one of the reserved names. */
  predicate IsName(u: string) {
    && 0 < |u| <= 63
    && (forall c <- u :: 'a' <= c <= 'z' || '0' <= c <= '9' || c == '-')
    && u[0] != '-' && u[|u| - 1] != '-'
    && u != "admin" && u != "system" && u != "operator" && u != "default" && u != "kube"
  }

  lemma NamesAreChecked(u: string)
    ensures IsValidUsername(u) <==> IsName(u)
  {
    if IsName(u) {
      assert u[0] in u && u[|u| - 1] in u;
      assert forall i :: 0 <= i < |u| ==> u[i] in u;
    }
  }

  /** The last registration of a name. */
  function LatestOf(log: seq<Registration>, u: string): Option<Registration> {
    if log == [] then None
    else if log[|log| - 1].username == u then Some(log[|log| - 1])
    else LatestOf(log[..|log| - 1], u)
  }

  lemma LatestAppended(log: seq<Registration>, r: Registration, u: string)
    ensures LatestOf(log + [r], u) == if r.username == u then Some(r) else LatestOf(log, u)
  {
    assert (log + [r])[..|log|] == log;
  }

  ghost predicate UsersOk(w: World) {
    forall u <- w.users ::
      IsName(u) && LatestOf(w.registered, u).Some? && LatestOf(w.registered, u).value.email == w.users[u]
  }

  /** A redeemed request that names a valid and unused name creates exactly that
      user, with its invite's email; any other leaves the users as they are. */
  lemma RegistrationCreatesExactly(w: World, id: nat, username: string)
    requires LogOk(w)
    ensures var w' := Apply(w, Register(id, username));
      if id in w.requests && w.requests[id].Redeemed? && IsName(username) && username !in w.users then
        var entry := w.requests[id].entry;
        var email := w.redeemed[entry].invite.email;
        && w'.users == w.users[username := email]
        && w'.registered == w.registered + [Registration(username, email, entry)]
        && id !in w'.requests
      else w'.users == w.users && w'.registered == w.registered
  {
    NamesAreChecked(username);
    if id in w.requests {
      assert StageOk(w, w.requests[id]);
    }
  }

  /** What an event does to one user and to the log. */
  lemma EventKeepsUser(w: World, e: Event, u: string)
    requires u in w.users && e != DeleteUser(u)
    ensures var w' := Apply(w, e);
      && u in w'.users && w'.users[u] == w.users[u]
      && (w'.registered == w.registered
          || (|w'.registered| == |w.registered| + 1 && w.registered <= w'.registered
              && w'.registered[|w.registered|].username != u))
  {}

  lemma EventKeepsUsersOk(w: World, e: Event)
    requires LogOk(w) && UsersOk(w)
    ensures UsersOk(Apply(w, e))
  {
    if e.Register? {
      RegistrationCreatesExactly(w, e.id, e.username);
      var w' := Apply(w, e);
      if w'.registered != w.registered {
        forall u <- w'.users
          ensures IsName(u) && LatestOf(w'.registered, u).Some? && LatestOf(w'.registered, u).value.email == w'.users[u]
        {
          LatestAppended(w.registered, w'.registered[|w.registered|], u);
        }
      }
    } else {
      assert Apply(w, e).registered == w.registered;
      assert forall u <- Apply(w, e).users :: u in w.users && Apply(w, e).users[u] == w.users[u];
    }
  }

  /** In every run each stored user has a valid name that is not reserved, and the
      email of the latest registration of that name. */
  lemma {:induction false} UsersAreRegistered(events: seq<Event>)
    ensures UsersOk(Run(EMPTY, events))
  {
    if events != [] {
      var before := events[..|events| - 1];
      UsersAreRegistered(before);
      RunKeepsLog(before);
      EventKeepsUsersOk(Run(EMPTY, before), events[|events| - 1]);
    }
  }

  /** Nothing but its own deletion changes or removes a user; so until then its
      name is not registered again. */
  lemma {:induction false} UsersStayUntilDeleted(w: World, more: seq<Event>, u: string)
    requires u in w.users && DeleteUser(u) !in more
    ensures var w' := Run(w, more);
      && u in w'.users && w'.users[u] == w.users[u]
      && w.registered <= w'.registered
      && forall i :: |w.registered| <= i < |w'.registered| ==> w'.registered[i].username != u
  {
    if more != [] {
      var before, last := more[..|more| - 1], more[|more| - 1];
      UsersStayUntilDeleted(w, before, u);
      EventKeepsUser(Run(w, before), last, u);
    }
  }
}
