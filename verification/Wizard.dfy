/**
 * The deployment wizard: texts and buttons arrive in any order, each handled on the snapshot it loaded.  Whatever
 * reaches the confirm button complete is accepted by the server's validator, unchanged.
 */
module Wizard {
  import opened Options
  import opened Text
  import opened Validators

  const DEFAULT_SNI := "www.microsoft.com"

  datatype Step =
    Connection | WorkerName | WorkerHostname | NodeHostname | VpsIpv4 | AcmeEmail | RealitySni | Ufw | Confirm

  datatype Boundary = Boundary(connectionId: string, accountId: string, zoneId: string, zoneName: string)

  datatype Form = Form(
    boundary: Boundary,
    workerName: Option<string>,
    workerHostname: Option<string>,
    nodeHostname: Option<string>,
    vpsIpv4: Option<string>,
    acmeEmail: Option<string>,
    realityServerName: Option<string>,
    enableUfw: Option<bool>)

  datatype Active = Active(step: Step, form: Form)

  // ----- the wizard's checks -----

  function Normal(s: string): string {
    Lower(Trim(s))
  }

  predicate EndsWith(s: string, suffix: string) {
    |suffix| <= |s| && s[|s| - |suffix|..] == suffix
  }

  predicate InZone(host: string, zoneName: string) {
    EndsWith(host, "." + Lower(zoneName))
  }

  /** `validateWizardSubdomain`: an absent or empty other name is not compared. */
  predicate SubdomainOk(text: string, zoneName: string, other: Option<string>) {
    IsValidHostname(Normal(text)) && InZone(Normal(text), zoneName)
    && !(other.Some? && other.value != [] && Normal(text) == other.value)
  }

  predicate SniOk(text: string, node: string) {
    IsValidHostname(Normal(text)) && Normal(text) != node
  }

  function OrEmpty(s: Option<string>): string {
    match s
    case Some(v) => v
    case None => []
  }

  predicate Accepts(w: Active, text: string) {
    match w.step
    case WorkerName => IsValidWorkerName(Normal(text))
    case WorkerHostname => SubdomainOk(text, w.form.boundary.zoneName, None)
    case NodeHostname => SubdomainOk(text, w.form.boundary.zoneName, w.form.workerHostname)
    case VpsIpv4 => IsPublicIpv4(Trim(text))
    case AcmeEmail => IsValidEmail(Normal(text))
    case RealitySni => SniOk(text, OrEmpty(w.form.nodeHostname))
    case _ => false
  }

  /** The row an accepted text saves. */
  function Filled(w: Active, text: string): Active
    requires Accepts(w, text)
  {
    match w.step
    case WorkerName => Active(WorkerHostname, w.form.(workerName := Some(Normal(text))))
    case WorkerHostname => Active(NodeHostname, w.form.(workerHostname := Some(Normal(text))))
    case NodeHostname => Active(VpsIpv4, w.form.(nodeHostname := Some(Normal(text))))
    case VpsIpv4 => Active(AcmeEmail, w.form.(vpsIpv4 := Some(Trim(text))))
    case AcmeEmail => Active(RealitySni, w.form.(acmeEmail := Some(Normal(text))))
    case _ => Active(Ufw, w.form.(realityServerName := Some(Normal(text))))
  }

  function Begun(b: Boundary): Active {
    Active(WorkerName, Form(b, None, None, None, None, None, None, None))
  }

  function WithDefaultSni(w: Active): Active {
    Active(Ufw, w.form.(realityServerName := Some(DEFAULT_SNI)))
  }

  function WithUfw(w: Active, enable: bool): Active {
    Active(Confirm, w.form.(enableUfw := Some(enable)))
  }

  predicate Present(s: Option<string>) {
    s.Some? && s.value != []
  }

  /** The completeness check of the confirm button. */
  predicate Complete(f: Form) {
    && Present(f.workerName) && Present(f.workerHostname) && Present(f.nodeHostname)
    && Present(f.vpsIpv4) && Present(f.acmeEmail) && Present(f.realityServerName) && f.enableUfw.Some?
  }

  // ----- the server's validator -----

  datatype Input = Input(
    connectionId: string, accountId: string, zoneId: string, workerName: string, workerHostname: string,
    nodeHostname: string, vpsIpv4: string, acmeEmail: string, realityServerName: string, enableUfw: bool)

  predicate Given(s: string, max: nat) {
    1 <= |s| <= max
  }

  function Normalized(i: Input): Input {
    Input(Normal(i.connectionId), Normal(i.accountId), Normal(i.zoneId), Normal(i.workerName), Normal(i.workerHostname),
          Normal(i.nodeHostname), Normal(i.vpsIpv4), Normal(i.acmeEmail), Normal(i.realityServerName), i.enableUfw)
  }

  predicate AllGiven(i: Input) {
    && Given(i.connectionId, 36) && Given(i.accountId, 32) && Given(i.zoneId, 32) && Given(i.workerName, 64)
    && Given(i.workerHostname, 253) && Given(i.nodeHostname, 253) && Given(i.vpsIpv4, 15)
    && Given(i.acmeEmail, 254) && Given(i.realityServerName, 253)
  }

  predicate AllValid(n: Input) {
    && IsValidConnectionId(n.connectionId) && IsValidCloudflareId(n.accountId) && IsValidCloudflareId(n.zoneId)
    && IsValidWorkerName(n.workerName)
    && IsValidHostname(n.workerHostname) && IsValidHostname(n.nodeHostname) && IsValidHostname(n.realityServerName)
    && n.workerHostname != n.nodeHostname && IsPublicIpv4(n.vpsIpv4) && IsValidEmail(n.acmeEmail)
  }

  /** `validateCreateDeployment`; None where it throws. */
  function ValidateCreateDeployment(i: Input): Option<Input> {
    if AllGiven(i) && AllValid(Normalized(i)) then Some(Normalized(i)) else None
  }

  /** What the validator takes: every text given and not too long, and each valid once trimmed and in lower case. */
  lemma AcceptedIff(i: Input)
    ensures ValidateCreateDeployment(i).Some? <==>
      && 1 <= |i.connectionId| <= 36 && 1 <= |i.accountId| <= 32 && 1 <= |i.zoneId| <= 32 && 1 <= |i.workerName| <= 64
      && 1 <= |i.workerHostname| <= 253 && 1 <= |i.nodeHostname| <= 253 && 1 <= |i.vpsIpv4| <= 15
      && 1 <= |i.acmeEmail| <= 254 && 1 <= |i.realityServerName| <= 253
      && IsValidConnectionId(Normal(i.connectionId)) && IsValidCloudflareId(Normal(i.accountId))
      && IsValidCloudflareId(Normal(i.zoneId)) && IsValidWorkerName(Normal(i.workerName))
      && IsValidHostname(Normal(i.workerHostname)) && IsValidHostname(Normal(i.nodeHostname))
      && IsValidHostname(Normal(i.realityServerName)) && Normal(i.workerHostname) != Normal(i.nodeHostname)
      && IsPublicIpv4(Normal(i.vpsIpv4)) && IsValidEmail(Normal(i.acmeEmail))
  {
  }

  /** The two further checks of `createDeployment` on the names, for the zone the boundary names. */
  predicate PassesZoneChecks(n: Input, zoneName: string) {
    InZone(n.workerHostname, zoneName) && InZone(n.nodeHostname, zoneName) && n.realityServerName != n.nodeHostname
  }

  function InputOf(f: Form): Input
    requires Complete(f)
  {
    Input(f.boundary.connectionId, f.boundary.accountId, f.boundary.zoneId, f.workerName.value, f.workerHostname.value,
          f.nodeHostname.value, f.vpsIpv4.value, f.acmeEmail.value, f.realityServerName.value, f.enableUfw.value)
  }

  // ----- what every saved form keeps -----

  predicate WellFormedBoundary(b: Boundary) {
    IsValidConnectionId(b.connectionId) && IsValidCloudflareId(b.accountId) && IsValidCloudflareId(b.zoneId)
  }

  predicate GoodHost(h: Option<string>, zoneName: string) {
    h.Some? ==> IsValidHostname(h.value) && Settled(h.value) && InZone(h.value, zoneName)
  }

  predicate GoodName(f: Form) {
    f.workerName.Some? ==> IsValidWorkerName(f.workerName.value) && Settled(f.workerName.value)
  }

  predicate GoodAddress(f: Form) {
    f.vpsIpv4.Some? ==> IsPublicIpv4(f.vpsIpv4.value)
  }

  predicate GoodEmail(f: Form) {
    f.acmeEmail.Some? ==> IsValidEmail(f.acmeEmail.value) && Settled(f.acmeEmail.value)
  }

  predicate GoodSni(f: Form) {
    f.realityServerName.Some? ==>
      && IsValidHostname(f.realityServerName.value) && Settled(f.realityServerName.value)
      && (f.realityServerName.value == DEFAULT_SNI || f.realityServerName != f.nodeHostname)
  }

  predicate GoodFields(f: Form) {
    && WellFormedBoundary(f.boundary) && GoodName(f) && GoodAddress(f) && GoodEmail(f) && GoodSni(f)
    && GoodHost(f.workerHostname, f.boundary.zoneName) && GoodHost(f.nodeHostname, f.boundary.zoneName)
    && (f.nodeHostname.Some? ==> f.workerHostname.Some? && f.workerHostname != f.nodeHostname)
  }

  /** What the step says about the fields: names come in order, and only buttons skip ahead. */
  predicate InStep(w: Active) {
    match w.step
    case Connection => false
    case WorkerName => w.form.workerHostname.None? && w.form.nodeHostname.None? && w.form.realityServerName.None?
    case WorkerHostname => w.form.nodeHostname.None? && w.form.realityServerName.None?
    case NodeHostname => w.form.workerHostname.Some? && w.form.realityServerName.None?
    case VpsIpv4 => w.form.nodeHostname.Some?
    case AcmeEmail => w.form.nodeHostname.Some?
    case RealitySni => w.form.nodeHostname.Some?
    case _ => true
  }

  predicate Good(w: Active) {
    GoodFields(w.form) && InStep(w)
  }

  lemma LabelHasNoDot(lab: string)
    requires ValidLabel(lab)
    ensures '.' !in lab && Settled(lab)
  {
  }

  lemma ThreeLabels(a: string, b: string, c: string)
    requires ValidLabel(a) && ValidLabel(b) && ValidLabel(c)
    ensures IsValidHostname(a + ['.'] + (b + ['.'] + c)) && Settled(a + ['.'] + (b + ['.'] + c))
  {
    LabelHasNoDot(a);
    LabelHasNoDot(b);
    LabelHasNoDot(c);
    SplitFirst(a, b + ['.'] + c, '.');
    SplitFirst(b, c, '.');
    SplitPlain(c, '.');
    assert (a + ['.'] + (b + ['.'] + c))[|a|] == '.';
  }

  lemma DefaultSniIsGood()
    ensures IsValidHostname(DEFAULT_SNI) && Settled(DEFAULT_SNI)
  {
    ThreeLabels("www", "microsoft", "com");
    assert DEFAULT_SNI == "www" + ['.'] + ("microsoft" + ['.'] + "com");
  }

  lemma FilledIsGood(w: Active, text: string)
    requires Good(w) && Accepts(w, text)
    ensures Good(Filled(w, text))
  {
    NormalizedIsSettled(text);
    HostnameNotEmpty(OrEmpty(w.form.workerHostname));
  }

  lemma HostnameNotEmpty(h: string)
    ensures IsValidHostname(h) ==> h != []
  {
  }

  lemma ButtonsAreGood(w: Active, enable: bool)
    requires Good(w)
    ensures Good(WithDefaultSni(w)) && Good(WithUfw(w, enable))
  {
    DefaultSniIsGood();
  }

  predicate AllSettled(i: Input) {
    && Settled(i.connectionId) && Settled(i.accountId) && Settled(i.zoneId) && Settled(i.workerName)
    && Settled(i.workerHostname) && Settled(i.nodeHostname) && Settled(i.vpsIpv4)
    && Settled(i.acmeEmail) && Settled(i.realityServerName)
  }

  lemma NothingNormalized(i: Input)
    requires AllSettled(i)
    ensures Normalized(i) == i
  {
    SettledStays(i.connectionId);
    SettledStays(i.accountId);
    SettledStays(i.zoneId);
    SettledStays(i.workerName);
    SettledStays(i.workerHostname);
    SettledStays(i.nodeHostname);
    SettledStays(i.vpsIpv4);
    SettledStays(i.acmeEmail);
    SettledStays(i.realityServerName);
  }

  lemma CompleteIsSettled(f: Form)
    requires GoodFields(f) && Complete(f)
    ensures AllSettled(InputOf(f)) && |f.vpsIpv4.value| <= 15
  {
    IdsAreSettled(f.boundary);
    Ipv4IsSettled(f.vpsIpv4.value);
  }

  lemma SettledIsAccepted(i: Input)
    requires AllSettled(i) && AllGiven(i) && AllValid(i)
    ensures ValidateCreateDeployment(i) == Some(i)
  {
    NothingNormalized(i);
  }

  /** A complete good form is accepted, and the validator changes none of its values. */
  lemma CompleteIsAccepted(f: Form)
    requires GoodFields(f) && Complete(f)
    ensures ValidateCreateDeployment(InputOf(f)) == Some(InputOf(f))
  {
    CompleteIsSettled(f);
    SettledIsAccepted(InputOf(f));
  }

  lemma ZoneChecksPass(f: Form)
    requires GoodFields(f) && Complete(f)
    ensures var collides := f.nodeHostname == Some(DEFAULT_SNI) && f.realityServerName == Some(DEFAULT_SNI);
      PassesZoneChecks(InputOf(f), f.boundary.zoneName) <==> !collides
  {
  }

  lemma IdsAreSettled(b: Boundary)
    requires WellFormedBoundary(b)
    ensures Settled(b.connectionId) && Settled(b.accountId) && Settled(b.zoneId)
  {
  }

  // ----- whole conversations -----

  /** The stored row, and the snapshots of handlers that have loaded it but not yet saved. */
  datatype World = World(row: Option<Active>, loaded: map<nat, Active>)

  datatype Event =
    | Begin(boundary: Boundary)
    | Load(id: nat)
    | Say(id: nat, text: string)
    | PressSni(id: nat)
    | PressUfw(id: nat, enable: bool)
    | Clear

  const QUIET := World(None, map[])

  predicate Enabled(s: World, e: Event) {
    match e
    case Begin(b) => WellFormedBoundary(b)
    case Load(id) => s.row.Some?
    case Say(id, _) => id in s.loaded
    case PressSni(id) => id in s.loaded
    case PressUfw(id, _) => id in s.loaded
    case Clear => true
  }

  /** A rejected text saves nothing; an unknown step clears the row. */
  function Said(row: Option<Active>, w: Active, text: string): Option<Active> {
    if w.step.Connection? then None else if Accepts(w, text) then Some(Filled(w, text)) else row
  }

  function Next(s: World, e: Event): World
    requires Enabled(s, e)
  {
    match e
    case Begin(b) => s.(row := Some(Begun(b)))
    case Load(id) => s.(loaded := s.loaded[id := s.row.value])
    case Say(id, text) => s.(row := Said(s.row, s.loaded[id], text))
    case PressSni(id) => s.(row := Some(WithDefaultSni(s.loaded[id])))
    case PressUfw(id, enable) => s.(row := Some(WithUfw(s.loaded[id], enable)))
    case Clear => s.(row := None)
  }

  ghost predicate AllGood(s: World) {
    (s.row.Some? ==> Good(s.row.value)) && forall id :: id in s.loaded ==> Good(s.loaded[id])
  }

  lemma StepKeepsGood(s: World, e: Event)
    requires AllGood(s) && Enabled(s, e)
    ensures AllGood(Next(s, e))
  {
    match e
    case Say(id, text) =>
      if Accepts(s.loaded[id], text) { FilledIsGood(s.loaded[id], text); }
    case PressSni(id) => ButtonsAreGood(s.loaded[id], true);
    case PressUfw(id, enable) => ButtonsAreGood(s.loaded[id], enable);
    case _ =>
  }

  predicate ValidRun(s: World, run: seq<Event>)
    decreases |run|
  {
    run == [] || (Enabled(s, run[0]) && ValidRun(Next(s, run[0]), run[1..]))
  }

  function Final(s: World, run: seq<Event>): World
    requires ValidRun(s, run)
    decreases |run|
  {
    if run == [] then s else Final(Next(s, run[0]), run[1..])
  }

  lemma {:induction false} RunKeepsGood(s: World, run: seq<Event>)
    requires AllGood(s) && ValidRun(s, run)
    ensures AllGood(Final(s, run))
    decreases |run|
  {
    if run != [] {
      StepKeepsGood(s, run[0]);
      RunKeepsGood(Next(s, run[0]), run[1..]);
    }
  }

  /**
   * After any sequence of texts and buttons, stale or concurrent, a snapshot that passes the completeness check is
   * accepted by the server unchanged.  It also passes the zone checks, except for a node that is the default target.
   */
  lemma ConfirmedIsAccepted(run: seq<Event>, id: nat)
    requires ValidRun(QUIET, run)
    requires id in Final(QUIET, run).loaded && Complete(Final(QUIET, run).loaded[id].form)
    ensures var f := Final(QUIET, run).loaded[id].form;
      && ValidateCreateDeployment(InputOf(f)) == Some(InputOf(f))
      && (PassesZoneChecks(InputOf(f), f.boundary.zoneName) <==>
            f.nodeHostname != Some(DEFAULT_SNI) || f.realityServerName != Some(DEFAULT_SNI))
  {
    RunKeepsGood(QUIET, run);
    CompleteIsAccepted(Final(QUIET, run).loaded[id].form);
    ZoneChecksPass(Final(QUIET, run).loaded[id].form);
  }

  // ----- the one refused target -----

  ghost predicate Leads(s: World, run: seq<Event>, t: World) {
    ValidRun(s, run) && Final(s, run) == t
  }

  lemma {:induction false} Append(s: World, first: seq<Event>, t: World, second: seq<Event>, u: World)
    requires Leads(s, first, t) && Leads(t, second, u)
    ensures Leads(s, first + second, u)
    decreases |first|
  {
    if first == [] {
      assert first + second == second;
    } else {
      Append(Next(s, first[0]), first[1..], t, second, u);
      assert (first + second)[1..] == first[1..] + second;
    }
  }

  /** Load the row, then handle an event on it. */
  lemma OnFreshLoad(s: World, e: Event) returns (t: World)
    requires s.row.Some? && (e.Say? || e.PressSni? || e.PressUfw?) && e.id == 0
    ensures Leads(s, [Load(0), e], t)
    ensures e.Say? ==> t.row == Said(s.row, s.row.value, e.text)
    ensures e.PressSni? ==> t.row == Some(WithDefaultSni(s.row.value))
    ensures e.PressUfw? ==> t.row == Some(WithUfw(s.row.value, e.enable))
  {
    var s1 := Next(s, Load(0));
    t := Next(s1, e);
    var run := [Load(0), e];
    assert run[1..] == [e] && [e][1..] == [];
    assert ValidRun(t, []) && Final(t, []) == t;
    assert ValidRun(s1, [e]) && Final(s1, [e]) == t;
  }

  lemma Answered(s: World, run: seq<Event>, t: World, text: string) returns (run': seq<Event>, t': World)
    requires Leads(s, run, t) && t.row.Some? && !t.row.value.step.Connection? && Accepts(t.row.value, text)
    ensures Leads(s, run', t') && t'.row == Some(Filled(t.row.value, text))
  {
    t' := OnFreshLoad(t, Say(0, text));
    Append(s, run, t, [Load(0), Say(0, text)], t');
    run' := run + [Load(0), Say(0, text)];
  }

  lemma DefaultIsInItsZone()
    ensures Normal(DEFAULT_SNI) == DEFAULT_SNI && IsValidHostname(DEFAULT_SNI) && InZone(DEFAULT_SNI, "microsoft.com")
  {
    DefaultSniIsGood();
    SettledStays(DEFAULT_SNI);
    assert Lower("microsoft.com") == "microsoft.com";
    assert DEFAULT_SNI[|DEFAULT_SNI| - 14..] == ".microsoft.com" == "." + "microsoft.com";
  }

  /** Six texts, each answering its own question. */
  datatype Texts = Texts(name: string, host: string, node: string, ip: string, email: string, sni: string)

  /** The texts the wizard accepts one after the other in the zone. */
  predicate Answers(t: Texts, zoneName: string) {
    && IsValidWorkerName(Normal(t.name)) && SubdomainOk(t.host, zoneName, None)
    && SubdomainOk(t.node, zoneName, Some(Normal(t.host))) && IsPublicIpv4(Trim(t.ip)) && IsValidEmail(Normal(t.email))
    && SniOk(t.sni, Normal(t.node))
  }

  /** A conversation from the start to the firewall button: six accepted texts. */
  lemma TextsGiven(b: Boundary, x: Texts) returns (run: seq<Event>, t: World)
    requires WellFormedBoundary(b) && Answers(x, b.zoneName)
    ensures Leads(QUIET, run, t)
    ensures t.row == Some(Active(Ufw, Form(b, Some(Normal(x.name)), Some(Normal(x.host)), Some(Normal(x.node)),
                                           Some(Trim(x.ip)), Some(Normal(x.email)), Some(Normal(x.sni)), None)))
  {
    run, t := Started(b);
    run, t := Answered(QUIET, run, t, x.name);
    run, t := Answered(QUIET, run, t, x.host);
    run, t := Answered(QUIET, run, t, x.node);
    run, t := Answered(QUIET, run, t, x.ip);
    run, t := Answered(QUIET, run, t, x.email);
    run, t := Answered(QUIET, run, t, x.sni);
  }

  /**
   * What is sent: after six accepted texts and the firewall button the form is complete, and the input carries the
   * boundary and each text in its own field, normalised.
   */
  lemma SentAsAnswered(b: Boundary, x: Texts, enable: bool) returns (run: seq<Event>, t: World)
    requires WellFormedBoundary(b) && Answers(x, b.zoneName)
    ensures Leads(QUIET, run, t) && t.row.Some? && t.row.value.step.Confirm? && Complete(t.row.value.form)
    ensures var i := InputOf(t.row.value.form);
      && i.connectionId == b.connectionId && i.accountId == b.accountId && i.zoneId == b.zoneId
      && i.workerName == Normal(x.name) && i.workerHostname == Normal(x.host) && i.nodeHostname == Normal(x.node)
      && i.vpsIpv4 == Trim(x.ip) && i.acmeEmail == Normal(x.email) && i.realityServerName == Normal(x.sni)
      && i.enableUfw == enable && ValidateCreateDeployment(i) == Some(i) && PassesZoneChecks(i, b.zoneName)
  {
    run, t := TextsGiven(b, x);
    var t' := OnFreshLoad(t, PressUfw(0, enable));
    Append(QUIET, run, t, [Load(0), PressUfw(0, enable)], t');
    run, t := run + [Load(0), PressUfw(0, enable)], t';
    Ipv4IsSettled(Trim(x.ip));
    StoredIsAccepted(run, t);
  }

  /** The form of a conversation that names the default target as its node and then presses the default button. */
  function Collision(b: Boundary, name: string, host: string, ip: string, email: string): Form {
    Form(b, Some(Normal(name)), Some(Normal(host)), Some(DEFAULT_SNI), Some(Trim(ip)), Some(Normal(email)),
         Some(DEFAULT_SNI), Some(true))
  }

  lemma NamesGiven(b: Boundary, name: string, host: string) returns (run: seq<Event>, t: World)
    requires WellFormedBoundary(b) && b.zoneName == "microsoft.com"
    requires IsValidWorkerName(Normal(name)) && SubdomainOk(host, b.zoneName, None) && Normal(host) != DEFAULT_SNI
    ensures Leads(QUIET, run, t)
    ensures var f := Form(b, Some(Normal(name)), Some(Normal(host)), Some(DEFAULT_SNI), None, None, None, None);
      t.row == Some(Active(VpsIpv4, f))
  {
    run, t := Started(b);
    run, t := Answered(QUIET, run, t, name);
    run, t := Answered(QUIET, run, t, host);
    DefaultNodeAccepted(t.row.value);
    run, t := Answered(QUIET, run, t, DEFAULT_SNI);
  }

  lemma Started(b: Boundary) returns (run: seq<Event>, t: World)
    requires WellFormedBoundary(b)
    ensures Leads(QUIET, run, t) && t.row == Some(Begun(b))
  {
    run, t := [Begin(b)], Next(QUIET, Begin(b));
    assert run[1..] == [] && ValidRun(t, []) && Final(t, []) == t;
  }

  lemma DefaultNodeAccepted(w: Active)
    requires w.step.NodeHostname? && w.form.boundary.zoneName == "microsoft.com"
    requires w.form.workerHostname != Some(DEFAULT_SNI)
    ensures Accepts(w, DEFAULT_SNI)
    ensures Filled(w, DEFAULT_SNI) == Active(VpsIpv4, w.form.(nodeHostname := Some(DEFAULT_SNI)))
  {
    DefaultIsInItsZone();
  }

  /**
   * In the zone `microsoft.com` a conversation can reach the refused case: the validator accepts what is confirmed, and
   * the target check of `createDeployment` then refuses it.
   */
  lemma DefaultTargetRefused(b: Boundary, name: string, host: string, ip: string, email: string)
    returns (run: seq<Event>, t: World)
    requires WellFormedBoundary(b) && b.zoneName == "microsoft.com"
    requires IsValidWorkerName(Normal(name)) && SubdomainOk(host, b.zoneName, None) && Normal(host) != DEFAULT_SNI
    requires IsPublicIpv4(Trim(ip)) && IsValidEmail(Normal(email))
    ensures Leads(QUIET, run, t) && t.row == Some(Active(Confirm, Collision(b, name, host, ip, email)))
    ensures var input := InputOf(Collision(b, name, host, ip, email));
      && input.realityServerName == "www.microsoft.com" == input.nodeHostname
      && ValidateCreateDeployment(input) == Some(input) && !PassesZoneChecks(input, b.zoneName)
  {
    run, t := NamesGiven(b, name, host);
    run, t := Answered(QUIET, run, t, ip);
    run, t := Answered(QUIET, run, t, email);
    var t1 := OnFreshLoad(t, PressSni(0));
    Append(QUIET, run, t, [Load(0), PressSni(0)], t1);
    var t2 := OnFreshLoad(t1, PressUfw(0, true));
    Append(QUIET, run + [Load(0), PressSni(0)], t1, [Load(0), PressUfw(0, true)], t2);
    run, t := run + [Load(0), PressSni(0)] + [Load(0), PressUfw(0, true)], t2;
    CollisionIsComplete(b, name, host, ip, email);
    StoredIsAccepted(run, t);
  }

  /** A complete form that a conversation has stored is accepted unchanged. */
  lemma StoredIsAccepted(run: seq<Event>, t: World)
    requires Leads(QUIET, run, t) && t.row.Some? && Complete(t.row.value.form)
    ensures ValidateCreateDeployment(InputOf(t.row.value.form)) == Some(InputOf(t.row.value.form))
  {
    RunKeepsGood(QUIET, run);
    CompleteIsAccepted(t.row.value.form);
  }

  lemma CollisionIsComplete(b: Boundary, name: string, host: string, ip: string, email: string)
    requires IsValidWorkerName(Normal(name)) && IsValidHostname(Normal(host))
    requires IsPublicIpv4(Trim(ip)) && IsValidEmail(Normal(email))
    ensures Complete(Collision(b, name, host, ip, email))
  {
    Ipv4IsSettled(Trim(ip));
  }

  // ----- the handlers -----

  class Desk {
    var row: Option<Active>

    method BeginDeployWizard(b: Boundary)
      modifies this
      ensures row == Some(Begun(b)) && (WellFormedBoundary(b) ==> Good(row.value))
    {
      row := Some(Active(WorkerName, Form(b, None, None, None, None, None, None, None)));
    }

    /** `processWizardText` on the snapshot it was given. */
    method ProcessWizardText(w: Active, text: string)
      modifies this
      ensures row == Said(old(row), w, text)
      ensures Good(w) && row != old(row) ==> row.Some? && Good(row.value)
    {
      if w.step.Connection? {
        row := None;
      } else if Accepts(w, text) {
        if Good(w) { FilledIsGood(w, text); }
        row := Some(Filled(w, text));
      }
    }

    method ApplySniDefault(w: Active)
      modifies this
      ensures row == Some(WithDefaultSni(w)) && (Good(w) ==> Good(row.value))
    {
      if Good(w) { ButtonsAreGood(w, true); }
      row := Some(Active(Ufw, w.form.(realityServerName := Some("www.microsoft.com"))));
    }

    method ApplyUfwChoice(w: Active, enable: bool)
      modifies this
      ensures row == Some(WithUfw(w, enable)) && (Good(w) ==> Good(row.value))
    {
      if Good(w) { ButtonsAreGood(w, enable); }
      row := Some(Active(Confirm, w.form.(enableUfw := Some(enable))));
    }

    /** The confirm button: the input sent to the server, which accepts a good one as it stands. */
    method PressConfirm(w: Active) returns (sent: Option<Input>)
      modifies this
      ensures sent == if Complete(w.form) then Some(InputOf(w.form)) else None
      ensures Good(w) && sent.Some? ==> ValidateCreateDeployment(sent.value) == sent
      ensures row == None
    {
      sent, row := None, None;
      if Complete(w.form) {
        sent := Some(InputOf(w.form));
        if Good(w) { CompleteIsAccepted(w.form); }
      }
    }
  }
}
