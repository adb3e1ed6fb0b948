/** client/core/ownDevice.go: taking ownership of a device.

    The device is modelled by the fields of its security resources; a request
    either succeeds, or fails without effect, or fails although it had its
    effect (the answer was lost), or fails and makes the device reset itself.
    Which of these happens is chosen freely for every single request, so what is
    proved holds for every failure pattern. */
module OwnDevice {

  import opened Wrappers

  /** schema/pstat: the onboarding states. */
  datatype OperationalState = RESET | RFOTM | RFPRO | RFNOP | SRESET

  const NOBODY: string := "00000000-0000-0000-0000-000000000000"

  /** doxm, pstat, acl2 and cred of the device. */
  datatype Remote = Remote(
    owned: bool, ownerID: string, deviceID: string, supportedOTMs: seq<int>, selectedOTM: int,
    doxmOwner: string, pstatOwner: string, aclOwner: string, credOwner: string,
    aclFor: Option<string>,          // whom the access control list gives access
    state: OperationalState, pending: bool, clientDirectedSupported: bool, clientDirected: bool)

  datatype Write =
    | SelectOTM(otm: int) | ClientDirected | DeviceID(id: string) | Credentials(owner: string)
    | OwnerID(id: string) | PstatOwner(id: string) | AclOwner(id: string) | Owned(owner: string)
    | SetState(state: OperationalState) | ClearAcl | SetAcl(owner: string)

  datatype Outcome = Done | AnswerLost | Refused | DeviceReset

  /** Section 8 of the OCF Security Specification: RESET forgets the owner and
      leads to RFOTM. */
  function Reset(d: Remote): Remote {
    d.(owned := false, ownerID := NOBODY, doxmOwner := NOBODY, pstatOwner := NOBODY, aclOwner := NOBODY,
       credOwner := NOBODY, aclFor := None, state := RFOTM, pending := false, clientDirected := false)
  }

  function Apply(d: Remote, w: Write): Remote {
    match w
    case SelectOTM(m) => d.(selectedOTM := m)
    case ClientDirected => d.(clientDirected := true)
    case DeviceID(id) => d.(deviceID := id)
    case Credentials(o) => d.(credOwner := o)
    case OwnerID(id) => d.(ownerID := id)
    case PstatOwner(id) => d.(pstatOwner := id)
    case AclOwner(id) => d.(aclOwner := id)
    case Owned(o) => d.(doxmOwner := o, owned := true)
    case SetState(st) => if st == RESET then Reset(d) else d.(state := st)
    case ClearAcl => d.(aclFor := None)
    case SetAcl(o) => d.(aclFor := Some(o))
  }

  predicate IsOwnership(w: Write) {
    w.Credentials? || w.OwnerID? || w.PstatOwner? || w.AclOwner? || w.Owned?
  }

  predicate IsAcl(w: Write) {
    w.ClearAcl? || w.SetAcl?
  }

  /** Ownership is written only in RFOTM and the access control list only in RFPRO. */
  predicate Disciplined(w: Write, state: OperationalState) {
    (IsOwnership(w) ==> state == RFOTM) && (IsAcl(w) ==> state == RFPRO)
  }

  // -------------------------------------------------------------- configuration

  /** actionDuringOwn: the default writes the device's own id back; a caller's
      action answers with a device id or an error, and is assumed to write nothing
      that is modelled here. */
  datatype During = NoAction | WriteDeviceID | Custom(answer: Option<string>)

  datatype Config = Config(psk: nat, hasSigner: bool, during: During, after: Option<bool>)

  /** What a complete ownership transfer writes over the TLS client. */
  function TransferScript(cfg: Config, deviceID: string, sdkID: string): seq<Write> {
    PrepareScript(cfg, deviceID) + OwnerScript(sdkID)
  }

  function OwnerScript(sdkID: string): seq<Write> {
    [Credentials(sdkID), OwnerID(sdkID)] + ResourceOwnerScript(sdkID)
  }

  function PrepareScript(cfg: Config, deviceID: string): seq<Write> {
    if cfg.during == WriteDeviceID then [ClientDirected, DeviceID(deviceID)] else [ClientDirected]
  }

  function ResourceOwnerScript(sdkID: string): seq<Write> {
    [PstatOwner(sdkID), AclOwner(sdkID), Owned(sdkID)]
  }

  /** What the configuration after it writes, over the TLS client and then over DTLS. */
  function ConfigureScript(sdkID: string): seq<Write> {
    [SetState(RFPRO)] + AclScript(sdkID) + [SetState(RFNOP)]
  }

  function AclScript(sdkID: string): seq<Write> {
    [ClearAcl, SetAcl(sdkID)]
  }

  function Script(cfg: Config, deviceID: string, sdkID: string): seq<Write> {
    TransferScript(cfg, deviceID, sdkID) + ConfigureScript(sdkID)
  }

  /** The writes of a complete transfer with the default action, in order; without it
      only the second one is missing. */
  lemma ScriptIs(cfg: Config, deviceID: string, sdkID: string)
    ensures Script(cfg, deviceID, sdkID) ==
            [ClientDirected] + (if cfg.during == WriteDeviceID then [DeviceID(deviceID)] else []) +
            [Credentials(sdkID), OwnerID(sdkID), PstatOwner(sdkID), AclOwner(sdkID), Owned(sdkID),
             SetState(RFPRO), ClearAcl, SetAcl(sdkID), SetState(RFNOP)]
  {
  }

  function ApplyAll(d: Remote, ws: seq<Write>): Remote {
    if ws == [] then d else Apply(ApplyAll(d, ws[..|ws|-1]), ws[|ws|-1])
  }

  lemma {:induction false} ApplyAllAppend(d: Remote, vs: seq<Write>, ws: seq<Write>)
    ensures ApplyAll(d, vs + ws) == ApplyAll(ApplyAll(d, vs), ws)
  {
    if ws == [] {
      assert vs + ws == vs;
    } else {
      ApplyAllAppend(d, vs, ws[..|ws|-1]);
      assert (vs + ws)[..|vs + ws|-1] == vs + ws[..|ws|-1];
    }
  }

  /** The first of the caller's methods that the device supports. */
  ghost predicate IsFirstChoice(m: int, otmClients: seq<int>, supported: seq<int>) {
    exists i :: 0 <= i < |otmClients| && otmClients[i] == m && m in supported &&
                forall j | 0 <= j < i :: otmClients[j] !in supported
  }

  /** findOTMClient: the caller's order decides. */
  method FindOTMClient(otmClients: seq<int>, supported: seq<int>) returns (r: Option<int>)
    ensures r == None ==> forall c | c in otmClients :: c !in supported
    ensures r.Some? ==> IsFirstChoice(r.value, otmClients, supported)
  {
    for i := 0 to |otmClients|
      invariant forall j | 0 <= j < i :: otmClients[j] !in supported
    {
      for k := 0 to |supported|
        invariant forall j | 0 <= j < k :: supported[j] != otmClients[i]
      {
        if supported[k] == otmClients[i] {
          return Some(otmClients[i]);
        }
      }
    }
    return None;
  }

  /** Which secure endpoints a link has. */
  datatype Link = Link(udp: bool, tcp: bool)

  /** The UDP or the TCP endpoint of a link. */
  datatype Address = Udp(link: nat) | Tcp(link: nat)

  function OfLink(l: Link, i: nat): seq<Address> {
    (if l.udp then [Udp(i)] else []) + (if l.tcp then [Tcp(i)] else [])
  }

  /** The secure endpoints in the order of the links, for each link UDP before TCP. */
  function Addresses(links: seq<Link>): seq<Address> {
    if links == [] then [] else Addresses(links[..|links|-1]) + OfLink(links[|links|-1], |links| - 1)
  }

  predicate Before(a: Address, b: Address) {
    a.link < b.link || (a.link == b.link && a.Udp? && b.Tcp?)
  }

  ghost predicate InOrder(addresses: seq<Address>) {
    forall p, q | 0 <= p < q < |addresses| :: Before(addresses[p], addresses[q])
  }

  ghost predicate Below(addresses: seq<Address>, n: nat) {
    forall p | 0 <= p < |addresses| :: addresses[p].link < n
  }

  lemma OneMoreLink(addresses: seq<Address>, l: Link, n: nat)
    requires InOrder(addresses) && Below(addresses, n)
    ensures InOrder(addresses + OfLink(l, n)) && Below(addresses + OfLink(l, n), n + 1)
  {
  }

  /** Each secure endpoint once: an earlier link first, and of one link UDP before TCP. */
  lemma {:induction false} AddressesInOrder(links: seq<Link>)
    ensures InOrder(Addresses(links)) && Below(Addresses(links), |links|)
  {
    if links != [] {
      var init := links[..|links|-1];
      AddressesInOrder(init);
      OneMoreLink(Addresses(init), links[|links|-1], |init|);
    }
  }

  /** And no others. */
  lemma {:induction false} AddressesOf(links: seq<Link>, i: nat)
    ensures Udp(i) in Addresses(links) <==> i < |links| && links[i].udp
    ensures Tcp(i) in Addresses(links) <==> i < |links| && links[i].tcp
  {
    if links != [] {
      var init, n := links[..|links|-1], |links| - 1;
      AddressesOf(init, i);
      EndpointsOfLink(links[n], n, i);
      assert Addresses(links) == Addresses(init) + OfLink(links[n], n);
      assert forall a :: a in Addresses(links) <==> a in Addresses(init) || a in OfLink(links[n], n);
      assert i < n ==> init[i] == links[i];
    }
  }

  lemma EndpointsOfLink(l: Link, n: nat, i: nat)
    ensures Udp(i) in OfLink(l, n) <==> i == n && l.udp
    ensures Tcp(i) in OfLink(l, n) <==> i == n && l.tcp
  {
  }

  lemma AddressesStep(links: seq<Link>, i: nat)
    requires i < |links|
    ensures Addresses(links[..i+1]) == Addresses(links[..i]) + OfLink(links[i], i)
    ensures Addresses(links[..i+1]) <= Addresses(links)
    decreases |links| - i
  {
    assert links[..i+1][..i] == links[..i];
    if i + 1 == |links| {
      assert links[..i+1] == links;
    } else {
      AddressesStep(links, i + 1);
    }
  }

  /** What the device looks like after a complete transfer of ownership. */
  function Transferred(d: Remote, cfg: Config, deviceID: string, sdkID: string): Remote {
    d.(clientDirected := true, deviceID := if cfg.during == WriteDeviceID then deviceID else d.deviceID,
       credOwner := sdkID, ownerID := sdkID, pstatOwner := sdkID, aclOwner := sdkID, doxmOwner := sdkID, owned := true)
  }

  /** A device that is ready for a client-directed transfer of ownership. */
  predicate Ready(d: Remote) {
    d.state == RFOTM && !d.pending && d.clientDirectedSupported
  }

  /** Nobody's, and in the state in which it can be owned again. */
  predicate Unowned(d: Remote) {
    && !d.owned && d.ownerID == d.doxmOwner == d.pstatOwner == d.aclOwner == d.credOwner == NOBODY
    && d.aclFor == None && d.state == RFOTM && !d.pending && !d.clientDirected
  }

  /** What no write changes. */
  predicate SameKind(d: Remote, d': Remote) {
    d'.supportedOTMs == d.supportedOTMs && d'.clientDirectedSupported == d.clientDirectedSupported
  }

  /** A key of the right size, or a signer; and no error from the caller's action. */
  predicate Usable(cfg: Config) {
    && (cfg.psk == 16 || (cfg.psk == 0 && cfg.hasSigner))
    && !(cfg.during.Custom? && cfg.during.answer == None)
  }

  /** Owned in every resource, accessible to the owner and in normal operation. */
  predicate OwnedBy(d: Remote, sdkID: string) {
    && d.owned && d.ownerID == d.doxmOwner == d.pstatOwner == d.aclOwner == d.credOwner == sdkID
    && d.aclFor == Some(sdkID) && d.state == RFNOP && d.clientDirected
  }

  /** Applied one after the other, the writes of the script are the transfer. */
  lemma ScriptAchieves(d: Remote, cfg: Config, deviceID: string, sdkID: string)
    ensures var d' := ApplyAll(d, Script(cfg, deviceID, sdkID));
            d' == Transferred(d, cfg, deviceID, sdkID).(aclFor := Some(sdkID), state := RFNOP) && OwnedBy(d', sdkID)
  {
    TransferAchieves(d, cfg, deviceID, sdkID);
    ApplyAllAppend(d, TransferScript(cfg, deviceID, sdkID), ConfigureScript(sdkID));
    ConfigureAchieves(Transferred(d, cfg, deviceID, sdkID), sdkID);
  }

  lemma TransferAchieves(d: Remote, cfg: Config, deviceID: string, sdkID: string)
    ensures ApplyAll(d, TransferScript(cfg, deviceID, sdkID)) == Transferred(d, cfg, deviceID, sdkID)
  {
    var p := PrepareScript(cfg, deviceID);
    PrepareAchieves(d, cfg, deviceID);
    ApplyAllAppend(d, p, OwnerScript(sdkID));
    OwnerAchieves(ApplyAll(d, p), sdkID);
  }

  lemma OwnerAchieves(d: Remote, sdkID: string)
    ensures ApplyAll(d, OwnerScript(sdkID)) ==
            d.(credOwner := sdkID, ownerID := sdkID, pstatOwner := sdkID, aclOwner := sdkID,
               doxmOwner := sdkID, owned := true)
  {
    ApplyTwo(d, Credentials(sdkID), OwnerID(sdkID));
    ApplyAllAppend(d, [Credentials(sdkID), OwnerID(sdkID)], ResourceOwnerScript(sdkID));
    ResourceOwnersAchieve(d.(credOwner := sdkID, ownerID := sdkID), sdkID);
  }

  lemma ResourceOwnersAchieve(d: Remote, sdkID: string)
    ensures ApplyAll(d, ResourceOwnerScript(sdkID)) ==
            d.(pstatOwner := sdkID, aclOwner := sdkID, doxmOwner := sdkID, owned := true)
  {
    ApplyTwo(d, PstatOwner(sdkID), AclOwner(sdkID));
    assert ResourceOwnerScript(sdkID)[..2] == [PstatOwner(sdkID), AclOwner(sdkID)];
  }

  lemma ConfigureAchieves(d: Remote, sdkID: string)
    ensures ApplyAll(d, ConfigureScript(sdkID)) == d.(aclFor := Some(sdkID), state := RFNOP)
  {
    var first, second := [SetState(RFPRO), ClearAcl], [SetAcl(sdkID), SetState(RFNOP)];
    assert ConfigureScript(sdkID) == first + second;
    ApplyAllAppend(d, first, second);
    ProvisionAchieves(d);
    AccessAchieves(d.(state := RFPRO, aclFor := None), sdkID);
  }

  lemma ProvisionAchieves(d: Remote)
    ensures ApplyAll(d, [SetState(RFPRO), ClearAcl]) == d.(state := RFPRO, aclFor := None)
  {
    ApplyTwo(d, SetState(RFPRO), ClearAcl);
  }

  lemma AccessAchieves(d: Remote, sdkID: string)
    ensures ApplyAll(d, [SetAcl(sdkID), SetState(RFNOP)]) == d.(aclFor := Some(sdkID), state := RFNOP)
  {
    ApplyTwo(d, SetAcl(sdkID), SetState(RFNOP));
  }

  lemma PrepareAchieves(d: Remote, cfg: Config, deviceID: string)
    ensures ApplyAll(d, PrepareScript(cfg, deviceID)) ==
            d.(clientDirected := true, deviceID := if cfg.during == WriteDeviceID then deviceID else d.deviceID)
  {
    ApplyTwo(d, ClientDirected, DeviceID(deviceID));
  }

  lemma ApplyTwo(d: Remote, v: Write, w: Write)
    ensures ApplyAll(d, [v]) == Apply(d, v) && ApplyAll(d, [v, w]) == Apply(Apply(d, v), w)
  {
    assert [v][..0] == [] && [v, w][..1] == [v];
  }

  class Owner {
    var deviceID: string
    /** the device */
    var remote: Remote
    /** every write ever attempted on it, and whether each was one the device's state admits */
    ghost var writes: seq<Write>
    ghost var disciplined: bool
    /** how many requests, dials and readings have failed so far */
    ghost var bad: nat

    constructor (deviceID: string, remote: Remote)
      ensures this.deviceID == deviceID && this.remote == remote && writes == [] && disciplined
    {
      this.deviceID, this.remote := deviceID, remote;
      writes, disciplined, bad := [], true, 0;
    }

    /** A request, dial or reading whose only result is whether it succeeded. */
    method Ask() returns (ok: bool)
      modifies this`bad
      ensures bad == old(bad) + if ok then 0 else 1
    {
      ok := *;
      if !ok { bad := bad + 1; }
    }

    /** UpdateResource and DeleteResource. */
    method Update(w: Write) returns (ok: bool)
      modifies this`remote, this`writes, this`disciplined, this`bad
      ensures writes == old(writes) + [w]
      ensures disciplined == (old(disciplined) && Disciplined(w, old(remote).state))
      ensures disciplined && (w.Credentials? || w.OwnerID? || w.PstatOwner? || w.AclOwner? || w.Owned?) ==>
                old(remote).state == RFOTM
      ensures disciplined && (w.ClearAcl? || w.SetAcl?) ==> old(remote).state == RFPRO
      ensures SameKind(old(remote), remote)
      ensures ok ==> remote == Apply(old(remote), w)
      ensures !ok ==> remote == old(remote) || remote == Apply(old(remote), w) || remote == Reset(old(remote))
      ensures bad == old(bad) + if ok then 0 else 1
    {
      writes, disciplined := writes + [w], disciplined && Disciplined(w, remote.state);
      var outcome: Outcome := *;
      if outcome != Done { bad := bad + 1; }
      match outcome
      case Done => remote := Apply(remote, w); return true;
      case AnswerLost => remote := Apply(remote, w); return false;
      case Refused => return false;
      case DeviceReset => remote := Reset(remote); return false;
    }

    /** Update as the next write of `plan`. */
    method Perform(w: Write, ghost plan: seq<Write>) returns (ok: bool)
      requires writes + [w] <= plan && Disciplined(w, remote.state)
      modifies this`remote, this`writes, this`disciplined, this`bad
      ensures SameKind(old(remote), remote)
      ensures writes == old(writes) + [w] && disciplined == old(disciplined)
      ensures ok ==> remote == Apply(old(remote), w)
      ensures bad == old(bad) + if ok then 0 else 1
    {
      ok := Update(w);
    }

    /** getTLSClient: it dials the secure endpoints in their order up to the first that
        answers, which is the last one in `tried`, and fails only after all of them. */
    method GetTLSClient(links: seq<Link>) returns (ok: bool, tried: seq<Address>)
      modifies this`bad
      ensures bad == old(bad) + |tried| - if ok then 1 else 0
      ensures if ok then tried != [] && tried <= Addresses(links) else tried == Addresses(links)
    {
      tried := [];
      for i := 0 to |links|
        invariant tried == Addresses(links[..i]) && bad == old(bad) + |tried|
      {
        AddressesStep(links, i);
        if links[i].udp {
          tried := tried + [Udp(i)];
          ok := Ask();
          if ok { return; }
        }
        if links[i].tcp {
          tried := tried + [Tcp(i)];
          ok := Ask();
          if ok { return; }
        }
      }
      assert links[..|links|] == links;
      return false, tried;
    }

    method CheckProvisionState() returns (ok: bool)
      modifies this`bad
      ensures old(bad) <= bad <= old(bad) + 1 && (bad == old(bad) ==> (ok <==> Ready(remote)))
      ensures ok ==> bad == old(bad)
    {
      var answered := Ask();
      return answered && !remote.pending && remote.state == RFOTM && remote.clientDirectedSupported;
    }

    /** setResourceOwner */
    method SetResourceOwner(sdkID: string) returns (ok: bool)
      requires remote.state == RFOTM
      modifies this`remote, this`writes, this`disciplined, this`bad
      ensures SameKind(old(remote), remote)
      ensures old(writes) <= writes <= old(writes) + ResourceOwnerScript(sdkID) && disciplined == old(disciplined)
      ensures ok ==> writes == old(writes) + ResourceOwnerScript(sdkID)
      ensures ok ==> remote == old(remote).(pstatOwner := sdkID, aclOwner := sdkID, doxmOwner := sdkID, owned := true)
      ensures bad >= old(bad) && (ok <==> bad == old(bad))
    {
      ghost var plan := writes + ResourceOwnerScript(sdkID);
      ok := Perform(PstatOwner(sdkID), plan);
      if !ok { return; }
      ok := Perform(AclOwner(sdkID), plan);
      if !ok { return; }
      ok := Perform(Owned(sdkID), plan);
    }

    /** ownershipTransfer after checkProvisionState up to provisionOwner. */
    method PrepareTransfer(cfg: Config) returns (ok: bool)
      requires remote.state == RFOTM
      modifies this
      ensures SameKind(old(remote), remote)
      ensures old(writes) <= writes <= old(writes) + PrepareScript(cfg, old(deviceID))
      ensures disciplined == old(disciplined)
      ensures ok ==> writes == old(writes) + PrepareScript(cfg, old(deviceID))
      ensures ok ==> remote == old(remote).(clientDirected := true,
                                            deviceID := if cfg.during == WriteDeviceID then old(deviceID)
                                                         else old(remote).deviceID)
      ensures ok ==> Usable(cfg)
      ensures bad >= old(bad) && (ok <==> bad == old(bad) && Usable(cfg))
      ensures ok ==> deviceID == if cfg.during.Custom? then cfg.during.answer.value else old(deviceID)
    {
      ghost var plan := writes + PrepareScript(cfg, deviceID);
      ok := Perform(ClientDirected, plan);
      if !ok { return; }
      if cfg.during == WriteDeviceID {
        ok := Perform(DeviceID(deviceID), plan);
        if !ok { return; }
      } else if cfg.during.Custom? {
        if cfg.during.answer == None { return false; }
        deviceID := cfg.during.answer.value;
      }
      ok := PrepareCredentials(cfg);
    }

    /** A key or a signer is needed, a key must be 16 bytes long, and reading and signing
        the device's certificate request may fail. */
    method PrepareCredentials(cfg: Config) returns (ok: bool)
      modifies this`bad
      ensures bad >= old(bad) && (ok <==> bad == old(bad) && (cfg.psk == 16 || (cfg.psk == 0 && cfg.hasSigner)))
    {
      if cfg.psk == 0 && !cfg.hasSigner { return false; }
      var prepared := Ask();
      return (cfg.psk == 0 || cfg.psk == 16) && prepared;
    }

    /** ownershipTransfer: it attempts a prefix of its script, all of it in RFOTM,
        and succeeds only with the whole script applied. */
    method OwnershipTransfer(cfg: Config, sdkID: string) returns (ok: bool)
      modifies this
      ensures SameKind(old(remote), remote)
      ensures disciplined == old(disciplined)
      ensures old(writes) <= writes <= old(writes) + TransferScript(cfg, old(deviceID), sdkID)
      ensures ok ==> writes == old(writes) + TransferScript(cfg, old(deviceID), sdkID)
      ensures ok ==> remote == Transferred(old(remote), cfg, old(deviceID), sdkID) && old(remote).state == RFOTM
      ensures bad >= old(bad) && (ok <==> bad == old(bad) && Ready(old(remote)) && Usable(cfg))
    {
      ok := CheckProvisionState();
      if !ok { return; }
      ok := PrepareTransfer(cfg);
      if !ok { return; }
      ok := SetOwner(sdkID);
    }

    /** ownershipTransfer from the credentials on. */
    method SetOwner(sdkID: string) returns (ok: bool)
      requires remote.state == RFOTM
      modifies this`remote, this`writes, this`disciplined, this`bad
      ensures SameKind(old(remote), remote)
      ensures old(writes) <= writes <= old(writes) + OwnerScript(sdkID) && disciplined == old(disciplined)
      ensures ok ==> writes == old(writes) + OwnerScript(sdkID)
      ensures ok ==> remote == old(remote).(credOwner := sdkID, ownerID := sdkID, pstatOwner := sdkID,
                                            aclOwner := sdkID, doxmOwner := sdkID, owned := true)
      ensures bad >= old(bad) && (ok <==> bad == old(bad))
    {
      ghost var plan := writes + OwnerScript(sdkID);
      ok := Perform(Credentials(sdkID), plan);
      if !ok { return; }
      ok := Perform(OwnerID(sdkID), plan);
      if !ok { return; }
      var answered := Ask();
      if !answered || remote.ownerID != sdkID { return false; }
      ok := SetResourceOwner(sdkID);
    }

    /** setACL */
    method SetACL(sdkID: string) returns (ok: bool)
      requires remote.state == RFPRO
      modifies this`remote, this`writes, this`disciplined, this`bad
      ensures SameKind(old(remote), remote)
      ensures old(writes) <= writes <= old(writes) + AclScript(sdkID) && disciplined == old(disciplined)
      ensures ok ==> writes == old(writes) + AclScript(sdkID)
      ensures ok ==> remote == old(remote).(aclFor := Some(sdkID))
      ensures bad >= old(bad) && (ok <==> bad == old(bad))
    {
      ghost var plan := writes + AclScript(sdkID);
      var linked := Ask();
      if !linked { return false; }
      ok := Perform(ClearAcl, plan);
      if !ok { return; }
      ok := Perform(SetAcl(sdkID), plan);
    }

    /** configure: it attempts a prefix of its script and succeeds only with all of it applied. */
    method Configure(cfg: Config, sdkID: string) returns (ok: bool)
      modifies this`remote, this`writes, this`disciplined, this`bad
      ensures SameKind(old(remote), remote)
      ensures disciplined == old(disciplined)
      ensures old(writes) <= writes <= old(writes) + ConfigureScript(sdkID)
      ensures ok ==> writes == old(writes) + ConfigureScript(sdkID)
      ensures ok ==> remote == old(remote).(aclFor := Some(sdkID), state := RFNOP)
      ensures bad >= old(bad) && (ok <==> bad == old(bad) && cfg.after != Some(false))
    {
      ghost var start := writes;
      ok := Update(SetState(RFPRO));
      if !ok { return; }
      // getDTLSClient
      var connected := Ask();
      if !connected { return false; }
      ok := SetACL(sdkID);
      assert start + [SetState(RFPRO)] + AclScript(sdkID) <= start + ConfigureScript(sdkID);
      if !ok { return; }
      ok := Update(SetState(RFNOP));
      assert writes == start + ConfigureScript(sdkID);
      if !ok { return; }
      if cfg.after.Some? { ok := cfg.after.value; }
    }

    /** Everything Own does over the TLS client. */
    method TransferAndConfigure(cfg: Config, sdkID: string)
      returns (ok: bool, ghost done: seq<Write>, ghost restored: bool)
      modifies this
      ensures restored ==> !ok && Unowned(remote)
      ensures !ok && !restored ==> bad > old(bad)
      ensures SameKind(old(remote), remote)
      ensures disciplined == old(disciplined)
      ensures done <= Script(cfg, old(deviceID), sdkID) && (ok ==> done == Script(cfg, old(deviceID), sdkID))
      ensures writes == old(writes) + done + if ok then [] else [SetState(RESET)]
      ensures ok ==> remote == Transferred(old(remote), cfg, old(deviceID), sdkID)
                                 .(aclFor := Some(sdkID), state := RFNOP)
      ensures bad >= old(bad)
      ensures bad == old(bad) ==> (ok <==> Ready(old(remote)) && Usable(cfg) && cfg.after != Some(false))
    {
      ghost var start := |writes|;
      ok := OwnershipTransfer(cfg, sdkID);
      if ok {
        ok := Configure(cfg, sdkID);
      }
      done, restored := writes[start..], false;
      if !ok {
        var reset := Update(SetState(RESET));
        restored := reset;
      }
    }

    /** Own. Whatever fails:
        - a device that is owned is never written, and only its own owner gets success;
        - success on an unowned device means the complete script was written once, in
          order, and the device is owned by the SDK, its access control list is set and
          it is in RFNOP;
        - a failure before there is a TLS client has at most selected the transfer method;
        - a failure after that has written a prefix of the script and then RESET, which
          is the last write attempted; unless that fails too, the device is nobody's again
          and can be owned by another attempt;
        - ownership is written in RFOTM only, and the access control list in RFPRO only;
        - when nothing fails, Own succeeds exactly on a device the SDK owns already, or on
          a ready one without an owner and with a method and a secure endpoint in common,
          with a usable configuration. */
    method Own(cfg: Config, sdk: Option<string>, otmClients: seq<int>, links: seq<Link>)
      returns (ok: bool, ghost tls: bool, ghost otm: int, ghost done: seq<Write>, ghost restored: bool)
      modifies this
      ensures SameKind(old(remote), remote)
      ensures disciplined == old(disciplined)
      ensures ok ==> sdk.Some?
      ensures old(remote).owned ==> writes == old(writes) && remote == old(remote) && !tls
      ensures old(remote).owned && ok ==> old(remote).ownerID == sdk.value
      ensures bad == old(bad) && old(remote).owned ==> (ok <==> sdk == Some(old(remote).ownerID))
      ensures bad == old(bad) && !old(remote).owned ==>
                (ok <==> sdk.Some? && (exists m :: m in otmClients && m in old(remote).supportedOTMs) &&
                         Addresses(links) != [] && Ready(old(remote)) && Usable(cfg) && cfg.after != Some(false))
      ensures ok && !old(remote).owned ==> tls
      ensures !tls && !old(remote).owned ==> writes == old(writes) || writes == old(writes) + [SelectOTM(otm)]
      ensures tls ==> sdk.Some?
      ensures tls || writes != old(writes) ==> IsFirstChoice(otm, otmClients, old(remote).supportedOTMs)
      ensures tls ==> done <= Script(cfg, old(deviceID), sdk.value)
      ensures tls && ok ==> done == Script(cfg, old(deviceID), sdk.value)
      ensures tls ==> writes == old(writes) + [SelectOTM(otm)] + done + if ok then [] else [SetState(RESET)]
      ensures tls && ok ==>
                remote == Transferred(old(remote).(selectedOTM := otm), cfg, old(deviceID), sdk.value)
                            .(aclFor := Some(sdk.value), state := RFNOP)
      ensures ok && !old(remote).owned ==> OwnedBy(remote, sdk.value)
      ensures restored ==> tls && !ok && Unowned(remote)
      ensures tls && !ok && !restored ==> bad > old(bad)
    {
      tls, otm, done, restored := false, 0, [], false;
      // GetOwnership
      var answered := Ask();
      if !answered || sdk == None { return false, tls, otm, done, restored; }
      if remote.owned {
        return remote.ownerID == sdk.value, tls, otm, done, restored;
      }
      var found := FindOTMClient(otmClients, remote.supportedOTMs);
      if found == None { return false, tls, otm, done, restored; }
      otm := found.value;
      ok := Update(SelectOTM(found.value));
      if !ok { return; }
      var tried;
      ok, tried := GetTLSClient(links);
      if !ok { return; }
      tls := true;
      ok, done, restored := TransferAndConfigure(cfg, sdk.value);
    }
  }
}
