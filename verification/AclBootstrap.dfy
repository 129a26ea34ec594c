/** The crash-tolerant ACL bootstrap: write the token Secret, bootstrap Nomad with its token,
    annotate the Secret.

    The protocol is a machine over single API calls. Between any two of them the operator may crash
    and the Nomad cluster may be recreated; a call whose reply is lost may take effect at any later
    time. The Secret is never deleted, and nobody else bootstraps Nomad. */
module AclBootstrap {
  import opened Api

  // The version stands for the resource version an update is checked against.
  datatype Secret = Secret(token: string, annotated: bool, version: nat)

  // Requests whose sender has stopped waiting.
  datatype Request = CreateRequest(token: string) | BootstrapRequest(token: string) | AnnotateRequest(version: nat)

  // Where the pass in progress is: before it, about to create the Secret, holding the Secret it
  // read or wrote, or holding the answer of a Nomad incarnation as well.
  datatype Place =
    | Idle
    | Creating(token: string)
    | Holding(token: string, annotated: bool, version: nat)
    | Confirmed(token: string, annotated: bool, version: nat, incarnation: nat)

  // The Nomad clusters that ever lived under this name, the current one last, each with the token
  // it was bootstrapped with. `confirmed` lists the incarnations that passes returned success for.
  datatype State = State(
    secret: Option<Secret>, nomads: seq<Option<string>>, inFlight: set<Request>,
    place: Place, writes: nat, confirmed: seq<nat>)

  const INITIAL := State(None, [None], {}, Idle, 0, [])

  datatype Action =
    | Begin(minted: string)        // read the Secret; mint a token if it is absent
    | Create(o: Outcome)
    | CallBootstrap(o: Outcome)
    | Annotate(o: Outcome)         // or return at once when the Secret is annotated already
    | Crash
    | Recreate(retained: bool)     // deleted and created again: on its retained data, or a new, empty Nomad
    | Land(r: Request, at: nat)    // a request from before takes effect, on whichever Nomad

  function Current(s: State): nat
    requires s.nomads != []
  {
    |s.nomads| - 1
  }

  function Written(s: State, token: string): State {
    if s.secret.Some? then s else s.(secret := Some(Secret(token, false, 0)), writes := s.writes + 1)
  }

  function Bootstrapped(s: State, token: string, at: nat): State {
    if at < |s.nomads| && s.nomads[at].None? then s.(nomads := s.nomads[at := Some(token)]) else s
  }

  function Annotated(s: State, version: nat): State {
    if s.secret.Some? && s.secret.value.version == version
    then s.(secret := Some(s.secret.value.(annotated := true, version := version + 1)), writes := s.writes + 1)
    else s
  }

  function Stop(s: State): State { s.(place := Idle) }

  function Send(s: State, r: Request): State { Stop(s).(inFlight := s.inFlight + {r}) }

  function Step(s: State, a: Action): State {
    match a
      case Begin(minted) =>
        if !s.place.Idle? then s
        else if s.secret.None? then s.(place := Creating(minted))
        else s.(place := Holding(s.secret.value.token, s.secret.value.annotated, s.secret.value.version))
      case Create(o) =>
        if !s.place.Creating? then s
        else if o == ReplyLost then Send(s, CreateRequest(s.place.token))
        else if o == Refused || s.secret.Some? then Stop(s)
        else Written(s, s.place.token).(place := Holding(s.place.token, false, 0))
      case CallBootstrap(o) =>
        if !s.place.Holding? || s.nomads == [] then s
        else if o == ReplyLost then Send(s, BootstrapRequest(s.place.token))
        else if o == Refused then Stop(s)
        else // accepted, or already bootstrapped: both are success
          Bootstrapped(s, s.place.token, Current(s)).(
            place := Confirmed(s.place.token, s.place.annotated, s.place.version, Current(s)))
      case Annotate(o) =>
        if !s.place.Confirmed? then s
        else if s.place.annotated then Return(s)
        else if o == ReplyLost then Send(s, AnnotateRequest(s.place.version))
        else if o == Refused || s.secret.None? || s.secret.value.version != s.place.version then Stop(s)
        else Return(Annotated(s, s.place.version))
      case Crash => Stop(s)
      case Recreate(retained) =>
        s.(nomads := s.nomads + [if retained && s.nomads != [] then s.nomads[Current(s)] else None])
      case Land(r, at) =>
        if r !in s.inFlight then s
        else
          var t := s.(inFlight := s.inFlight - {r});
          match r
          case CreateRequest(token) => Written(t, token)
          case BootstrapRequest(token) => Bootstrapped(t, token, at)
          case AnnotateRequest(version) => Annotated(t, version)
  }

  // Success, for the incarnation that answered.
  function Return(s: State): State
    requires s.place.Confirmed?
  {
    Stop(s).(confirmed := s.confirmed + [s.place.incarnation])
  }

  function Run(s: State, actions: seq<Action>): State {
    if actions == [] then s
    else Step(Run(s, actions[..|actions| - 1]), actions[|actions| - 1])
  }

  /* --------------------------------- Invariant --------------------------------- */

  // The Secret's token, which is the only token there is.
  predicate IsToken(s: State, token: string) {
    s.secret.Some? && s.secret.value.token == token
  }

  predicate SecretOk(s: State) {
    match s.secret
    case None => s.writes == 0
    case Some(x) => x.version == (if x.annotated then 1 else 0) && s.writes == 1 + x.version
  }

  ghost predicate NomadsOk(s: State) {
    s.nomads != [] && forall i :: 0 <= i < |s.nomads| && s.nomads[i].Some? ==> IsToken(s, s.nomads[i].value)
  }

  predicate RequestOk(s: State, r: Request) {
    match r
    case CreateRequest(_) => true
    case BootstrapRequest(token) => IsToken(s, token)
    case AnnotateRequest(version) => version == 0
  }

  // A Secret read earlier still is the Secret, up to the annotation.
  predicate CopyOk(s: State, token: string, annotated: bool, version: nat) {
    IsToken(s, token) && (annotated ==> s.secret.value.annotated) && (!annotated ==> version == 0)
  }

  predicate PlaceOk(s: State) {
    match s.place
    case Holding(token, annotated, version) => CopyOk(s, token, annotated, version)
    case Confirmed(token, annotated, version, incarnation) =>
      CopyOk(s, token, annotated, version) && incarnation < |s.nomads| && s.nomads[incarnation] == Some(token)
    case _ => true
  }

  ghost predicate ConfirmedOk(s: State) {
    forall i :: 0 <= i < |s.confirmed| ==>
      s.confirmed[i] < |s.nomads| && s.nomads[s.confirmed[i]].Some?
  }

  ghost predicate Inv(s: State) {
    && SecretOk(s) && NomadsOk(s) && PlaceOk(s) && ConfirmedOk(s)
    && forall r :: r in s.inFlight ==> RequestOk(s, r)
  }

  // The token never changes, bootstrapped Nomads stay so, success is never taken back.
  ghost predicate Extends(s: State, t: State) {
    && (s.secret.Some? ==> IsToken(t, s.secret.value.token))
    && |s.nomads| <= |t.nomads|
    && (forall i :: 0 <= i < |s.nomads| && s.nomads[i].Some? ==> t.nomads[i] == s.nomads[i])
    && |s.confirmed| <= |t.confirmed| && t.confirmed[..|s.confirmed|] == s.confirmed
  }

  lemma WrittenKeepsInv(s: State, token: string)
    requires Inv(s)
    ensures Inv(Written(s, token)) && Extends(s, Written(s, token)) && Written(s, token).secret.Some?
  {
  }

  lemma BootstrappedKeepsInv(s: State, token: string, at: nat)
    requires Inv(s) && IsToken(s, token)
    ensures Inv(Bootstrapped(s, token, at)) && Extends(s, Bootstrapped(s, token, at))
    ensures Bootstrapped(s, token, at).secret == s.secret && |Bootstrapped(s, token, at).nomads| == |s.nomads|
    ensures at < |s.nomads| ==> Bootstrapped(s, token, at).nomads[at] == Some(token)
  {
  }

  lemma AnnotatedKeepsInv(s: State)
    requires Inv(s)
    ensures Inv(Annotated(s, 0)) && Extends(s, Annotated(s, 0)) && Annotated(s, 0).place == s.place
  {
  }

  lemma SendKeepsInv(s: State, r: Request)
    requires Inv(s) && RequestOk(s, r)
    ensures Inv(Send(s, r)) && Extends(s, Send(s, r))
  {
  }

  lemma ReturnKeepsInv(s: State)
    requires Inv(s) && s.place.Confirmed?
    ensures Inv(Return(s)) && Extends(s, Return(s))
  {
  }

  lemma LandKeepsInv(s: State, r: Request, at: nat)
    requires Inv(s)
    ensures Inv(Step(s, Land(r, at))) && Extends(s, Step(s, Land(r, at)))
  {
    hide Written, Bootstrapped, Annotated;
    if r in s.inFlight {
      var t := s.(inFlight := s.inFlight - {r});
      assert Inv(t) && Extends(s, t);
      match r
      case CreateRequest(token) => WrittenKeepsInv(t, token);
      case BootstrapRequest(token) => BootstrappedKeepsInv(t, token, at);
      case AnnotateRequest(_) => AnnotatedKeepsInv(t);
    }
  }

  lemma BootstrapCallKeepsInv(s: State, o: Outcome)
    requires Inv(s)
    ensures Inv(Step(s, CallBootstrap(o))) && Extends(s, Step(s, CallBootstrap(o)))
  {
    hide Bootstrapped, Send;
    if s.place.Holding? {
      SendKeepsInv(s, BootstrapRequest(s.place.token));
      BootstrappedKeepsInv(s, s.place.token, Current(s));
    }
  }

  lemma AnnotateCallKeepsInv(s: State, o: Outcome)
    requires Inv(s)
    ensures Inv(Step(s, Annotate(o))) && Extends(s, Step(s, Annotate(o)))
  {
    hide Annotated, Send, Return;
    if s.place.Confirmed? {
      ReturnKeepsInv(s);
      if !s.place.annotated {
        SendKeepsInv(s, AnnotateRequest(0));
        AnnotatedKeepsInv(s);
        ReturnKeepsInv(Annotated(s, 0));
        ExtendsTransitive(s, Annotated(s, 0), Return(Annotated(s, 0)));
      }
    }
  }

  lemma {:induction false} StepKeepsInv(s: State, a: Action)
    requires Inv(s)
    ensures Inv(Step(s, a)) && Extends(s, Step(s, a))
  {
    match a
    case Begin(_) =>
    case Create(o) =>
      if s.place.Creating? {
        SendKeepsInv(s, CreateRequest(s.place.token));
        WrittenKeepsInv(s, s.place.token);
      }
    case CallBootstrap(o) => BootstrapCallKeepsInv(s, o);
    case Annotate(o) => AnnotateCallKeepsInv(s, o);
    case Crash =>
    case Recreate(_) =>
    case Land(r, at) => LandKeepsInv(s, r, at);
  }

  lemma ExtendsTransitive(s: State, t: State, u: State)
    requires Extends(s, t) && Extends(t, u)
    ensures Extends(s, u)
  {
    assert forall i :: 0 <= i < |s.nomads| && s.nomads[i].Some? ==> t.nomads[i] == s.nomads[i];
    assert u.confirmed[..|s.confirmed|] == t.confirmed[..|s.confirmed|];
  }

  lemma {:induction false} RunKeepsInv(s: State, actions: seq<Action>)
    requires Inv(s)
    ensures Inv(Run(s, actions)) && Extends(s, Run(s, actions))
  {
    if actions != [] {
      var front := actions[..|actions| - 1];
      RunKeepsInv(s, front);
      StepKeepsInv(Run(s, front), actions[|actions| - 1]);
      ExtendsTransitive(s, Run(s, front), Run(s, actions));
    }
  }

  /** In every reachable state: a bootstrapped Nomad holds exactly the Secret's token, every Nomad a
      pass returned success for is bootstrapped with it, and the Secret was written at most twice. */
  lemma BootstrapSafety(actions: seq<Action>)
    ensures var s := Run(INITIAL, actions);
            && (forall i :: 0 <= i < |s.nomads| && s.nomads[i].Some? ==> IsToken(s, s.nomads[i].value))
            && (forall i :: 0 <= i < |s.confirmed| ==>
                  s.confirmed[i] < |s.nomads| && s.nomads[s.confirmed[i]].Some?
                  && IsToken(s, s.nomads[s.confirmed[i]].value))
            && s.writes <= 2
  {
    RunKeepsInv(INITIAL, actions);
  }

  /** The token never changes once the Secret exists, whatever happens afterwards. */
  lemma TokenNeverChanges(actions: seq<Action>, more: seq<Action>)
    requires Run(INITIAL, actions).secret.Some?
    ensures IsToken(Run(INITIAL, actions + more), Run(INITIAL, actions).secret.value.token)
  {
    RunKeepsInv(INITIAL, actions);
    RunKeepsInv(Run(INITIAL, actions), more);
    RunConcat(INITIAL, actions, more);
  }

  ghost predicate Minted(actions: seq<Action>, token: string) {
    exists i :: 0 <= i < |actions| && actions[i] == Begin(token)
  }

  // Every token on its way into the Secret, and the Secret's own, is one some pass minted.
  ghost predicate TokensMinted(s: State, actions: seq<Action>) {
    && (s.secret.Some? ==> Minted(actions, s.secret.value.token))
    && (s.place.Creating? ==> Minted(actions, s.place.token))
    && forall r :: r in s.inFlight && r.CreateRequest? ==> Minted(actions, r.token)
  }

  lemma StepTokensMinted(s: State, actions: seq<Action>, a: Action)
    requires TokensMinted(s, actions)
    ensures TokensMinted(Step(s, a), actions + [a])
  {
    var more := actions + [a];
    forall token | Minted(actions, token)
      ensures Minted(more, token)
    {
      var i :| 0 <= i < |actions| && actions[i] == Begin(token);
      assert more[i] == Begin(token);
    }
    assert more[|actions|] == a;
    hide Minted;
    if a.Begin? { MintedLast(actions, a); }
  }

  lemma MintedLast(actions: seq<Action>, a: Action)
    requires a.Begin?
    ensures Minted(actions + [a], a.minted)
  {
    assert (actions + [a])[|actions|] == a;
  }

  /** The Secret's token is one that some pass of the run minted. */
  lemma {:induction false} TokenWasMinted(actions: seq<Action>)
    ensures var s := Run(INITIAL, actions);
            s.secret.Some? ==> exists i :: 0 <= i < |actions| && actions[i] == Begin(s.secret.value.token)
    ensures TokensMinted(Run(INITIAL, actions), actions)
  {
    if actions != [] {
      hide Step;
      var front, last := actions[..|actions| - 1], actions[|actions| - 1];
      TokenWasMinted(front);
      StepTokensMinted(Run(INITIAL, front), front, last);
      assert front + [last] == actions;
    } else {
      assert Run(INITIAL, []) == INITIAL;
    }
  }

  ghost predicate SomeNomadBootstrapped(s: State) {
    exists i :: 0 <= i < |s.nomads| && s.nomads[i].Some?
  }

  // Nobody has annotated the Secret, or is about to, before a Nomad was bootstrapped.
  ghost predicate AnnotationEarned(s: State) {
    (s.secret.Some? && s.secret.value.annotated)
    || (exists r :: r in s.inFlight && r.AnnotateRequest?) || s.place.Confirmed?
    ==> SomeNomadBootstrapped(s)
  }

  lemma StepEarnsAnnotation(s: State, a: Action)
    requires Inv(s) && AnnotationEarned(s)
    ensures AnnotationEarned(Step(s, a))
  {
    StepKeepsInv(s, a);
    var t := Step(s, a);
    if SomeNomadBootstrapped(s) {
      var i :| 0 <= i < |s.nomads| && s.nomads[i].Some?;
      assert t.nomads[i].Some?;
    } else if t.place.Confirmed? {
      assert t.nomads[t.place.incarnation].Some?;
    }
  }

  /** The marker on the Secret is only written once some Nomad was bootstrapped with its token. */
  lemma {:induction false} AnnotatedAfterBootstrap(actions: seq<Action>)
    ensures AnnotationEarned(Run(INITIAL, actions))
    ensures var s := Run(INITIAL, actions);
            s.secret.Some? && s.secret.value.annotated ==>
              exists i :: 0 <= i < |s.nomads| && s.nomads[i] == Some(s.secret.value.token)
  {
    RunKeepsInv(INITIAL, actions);
    if actions != [] {
      var front := actions[..|actions| - 1];
      RunKeepsInv(INITIAL, front);
      AnnotatedAfterBootstrap(front);
      StepEarnsAnnotation(Run(INITIAL, front), actions[|actions| - 1]);
      var s := Run(INITIAL, actions);
      if s.secret.Some? && s.secret.value.annotated { EarnedMeaning(s); }
    }
  }

  lemma EarnedMeaning(s: State)
    requires Inv(s) && AnnotationEarned(s) && s.secret.Some? && s.secret.value.annotated
    ensures exists i :: 0 <= i < |s.nomads| && s.nomads[i] == Some(s.secret.value.token)
  {
    var i :| 0 <= i < |s.nomads| && s.nomads[i].Some?;
    assert s.nomads[i] == Some(s.secret.value.token);
  }

  lemma {:induction false} RunConcat(s: State, a: seq<Action>, b: seq<Action>)
    ensures Run(s, a + b) == Run(Run(s, a), b)
  {
    if b == [] {
      assert a + b == a;
    } else {
      RunConcat(s, a, b[..|b| - 1]);
      assert (a + b)[..|a + b| - 1] == a + b[..|b| - 1];
    }
  }

  /* --------------------------------- The program --------------------------------- */

  // A run of one action more, and what it keeps.
  lemma RunSnoc(s: State, actions: seq<Action>, a: Action)
    requires Inv(Run(s, actions))
    ensures Run(s, actions + [a]) == Step(Run(s, actions), a) && Inv(Step(Run(s, actions), a))
  {
    assert (actions + [a])[..|actions|] == actions;
    StepKeepsInv(Run(s, actions), a);
  }

  lemma RunOfOne(s: State, a: Action)
    ensures Run(s, [a]) == Step(s, a)
  {
    assert [a][..0] == [];
  }

  lemma InvMeaning(s: State)
    requires Inv(s)
    ensures s.nomads != [] && PlaceOk(s)
  {
  }

  lemma ConfirmedMeaning(s: State, i: nat)
    requires Inv(s) && i < |s.confirmed|
    ensures var at := s.confirmed[i];
            at < |s.nomads| && s.nomads[at].Some? && IsToken(s, s.nomads[at].value)
  {
  }

  datatype Faults = Faults(getOk: bool, create: Outcome, bootstrap: Outcome, annotate: Outcome)

  class TokenKeeper {
    var secret: Option<Secret>
    var nomads: seq<Option<string>>
    var inFlight: set<Request>
    var writes: nat
    ghost var place: Place
    ghost var confirmed: seq<nat>

    ghost function Now(): State
      reads this
    {
      State(secret, nomads, inFlight, place, writes, confirmed)
    }

    // Keep a lost request in flight; it may have taken effect or may do so later.
    method Lose(r: Request)
      modifies this`inFlight, this`place
      ensures Now() == Send(old(Now()), r)
    {
      inFlight := inFlight + {r};
      place := Idle;
    }

    method Read(minted: string) returns (found: Option<Secret>)
      requires place.Idle?
      modifies this`place
      ensures Now() == Step(old(Now()), Begin(minted)) && found == secret
      ensures place == if found.None? then Creating(minted)
        else Holding(found.value.token, found.value.annotated, found.value.version)
    {
      place := match secret
        case Some(x) => Holding(x.token, x.annotated, x.version)
        case None => Creating(minted);
      found := secret;
    }

    method CreateSecret(token: string, o: Outcome) returns (ok: bool)
      requires place == Creating(token)
      modifies this`secret, this`writes, this`inFlight, this`place
      ensures ok ==> secret == Some(Secret(token, false, 0))
      ensures Now() == Step(old(Now()), Create(o))
      ensures if ok then place == Holding(token, false, 0) else place.Idle?
      ensures !ok ==> secret == old(secret)
      ensures o == Ok && old(secret).None? ==> ok
    {
      if o == ReplyLost {
        Lose(CreateRequest(token));
        return false;
      }
      if o == Refused || secret.Some? {
        place := Idle;
        return false;
      }
      secret, writes := Some(Secret(token, false, 0)), writes + 1;
      place := Holding(token, false, 0);
      ok := true;
    }

    method Bootstrap(token: string, o: Outcome) returns (ok: bool)
      requires place.Holding? && place.token == token && nomads != []
      modifies this`nomads, this`inFlight, this`place
      ensures Now() == Step(old(Now()), CallBootstrap(o))
      ensures o == Ok ==> ok
      ensures nomads != []
      ensures if ok then place == Confirmed(token, old(place).annotated, old(place).version, |nomads| - 1)
        else place.Idle?
    {
      if o == ReplyLost {
        Lose(BootstrapRequest(token));
        return false;
      }
      if o == Refused {
        place := Idle;
        return false;
      }
      var current := |nomads| - 1;
      if nomads[current].None? {
        nomads := nomads[current := Some(token)];
      }
      place := Confirmed(place.token, place.annotated, place.version, current);
      ok := true;
    }

    method MarkSecret(annotated: bool, version: nat, o: Outcome) returns (ok: bool)
      requires place.Confirmed? && place.annotated == annotated && place.version == version
      requires PlaceOk(Now())
      modifies this`secret, this`writes, this`inFlight, this`place, this`confirmed
      ensures Now() == Step(old(Now()), Annotate(o)) && place.Idle?
      ensures ok ==> confirmed == old(confirmed) + [old(place).incarnation] && secret.Some? && secret.value.annotated
      ensures !ok ==> confirmed == old(confirmed)
      ensures o == Ok && (annotated || old(secret).value.version == version) ==> ok
      ensures secret.Some? && old(secret).Some? && secret.value.token == old(secret).value.token
    {
      ghost var incarnation := place.incarnation;
      if annotated {
        place, confirmed := Idle, confirmed + [incarnation];
        return true;
      }
      if o == ReplyLost {
        Lose(AnnotateRequest(version));
        return false;
      }
      if o == Refused || secret.None? || secret.value.version != version {
        place := Idle;
        return false;
      }
      secret, writes := Some(secret.value.(annotated := true, version := version + 1)), writes + 1;
      place, confirmed := Idle, confirmed + [incarnation];
      ok := true;
    }

    // Whether a step taken from `was` is the last of `actions`.
    ghost predicate Took(was: State, actions: seq<Action>)
      reads this
    {
      Now() == Run(was, actions) && Inv(Now())
    }

    // The Secret's token, written first if there is no Secret.
    method ReadOrCreate(minted: string, o: Outcome)
      returns (ok: bool, token: string, annotated: bool, version: nat, ghost actions: seq<Action>)
      requires Inv(Now()) && place.Idle?
      modifies this`secret, this`writes, this`inFlight, this`place
      ensures Took(old(Now()), actions)
      ensures if ok then place == Holding(token, annotated, version) else place.Idle?
      ensures ok ==> secret == Some(Secret(token, annotated, version))
      ensures secret == old(secret) || (old(secret).None? && secret.Some? && secret.value.token == minted)
      ensures actions != [] && actions[0] == Begin(minted)
      ensures o == Ok ==> ok
    {
      hide Run, Step, Inv;
      ghost var start := Now();
      StepKeepsInv(start, Begin(minted));
      RunOfOne(start, Begin(minted));
      actions := [Begin(minted)];
      var found := Read(minted);
      ok, token, annotated, version := true, minted, false, 0;
      match found {
        case Some(sec) =>
          token, annotated, version := sec.token, sec.annotated, sec.version;
        case None =>
          RunSnoc(start, actions, Create(o));
          actions := actions + [Create(o)];
          ok := CreateSecret(token, o);
      }
    }

    // Bootstrap Nomad with the token, then mark the Secret.
    method Register(token: string, annotated: bool, version: nat, bootstrap: Outcome, annotate: Outcome)
      returns (ok: bool, ghost actions: seq<Action>)
      requires Inv(Now()) && place == Holding(token, annotated, version)
      modifies this
      ensures Took(old(Now()), actions) && place.Idle?
      ensures ok ==> nomads != [] && confirmed == old(confirmed) + [|nomads| - 1]
      ensures ok ==> secret.Some? && secret.value.annotated
      ensures !ok ==> confirmed == old(confirmed)
      ensures bootstrap == Ok && annotate == Ok && (annotated || old(secret).value.version == version) ==> ok
      ensures secret.Some? && secret.value.token == token
    {
      hide Run, Step, Inv;
      ghost var start := Now();
      InvMeaning(start);
      StepKeepsInv(start, CallBootstrap(bootstrap));
      RunOfOne(start, CallBootstrap(bootstrap));
      actions := [CallBootstrap(bootstrap)];
      ok := Bootstrap(token, bootstrap);
      if ok {
        InvMeaning(Now());
        RunSnoc(start, actions, Annotate(annotate));
        actions := actions + [Annotate(annotate)];
        ok := MarkSecret(annotated, version, annotate);
      }
    }

    /** One uninterrupted pass is a run of the machine. If it returns success, the current Nomad is
        bootstrapped with the Secret's token and the Secret is annotated; if every call works, it does
        return success. A Secret that was there keeps its token, and one that is written holds the
        token minted for it. */
    method EnsureBootstrapToken(minted: string, f: Faults) returns (ok: bool, ghost actions: seq<Action>)
      requires Inv(Now()) && place.Idle?
      modifies this
      ensures Now() == Run(old(Now()), actions) && Inv(Now()) && place.Idle?
      ensures if ok then nomads != [] && confirmed == old(confirmed) + [|nomads| - 1] else confirmed == old(confirmed)
      ensures ok ==>
        && nomads[|nomads| - 1].Some? && IsToken(Now(), nomads[|nomads| - 1].value)
        && secret.value.annotated
      ensures f == Faults(true, Ok, Ok, Ok) ==> ok
      ensures secret.Some? ==> secret.value.token == if old(secret).Some? then old(secret).value.token else minted
      ensures f.getOk ==> actions != [] && actions[0] == Begin(minted)
    {
      ok, actions := false, [];
      if !f.getOk {
        return;
      }
      var held, token, annotated, version, before := ReadOrCreate(minted, f.create);
      actions := before;
      if held {
        ghost var more;
        ok, more := Register(token, annotated, version, f.bootstrap, f.annotate);
        RunConcat(old(Now()), before, more);
        actions := before + more;
        if ok {
          ConfirmedMeaning(Now(), |confirmed| - 1);
        }
      }
    }
  }
}
