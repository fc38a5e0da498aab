/** Who may type into a terminal: a lease per tab, held by one raw subscriber, over clients that come and go. */
module ResponderLease {
  import opened Common

  datatype Mode = RawMode | ProjectionMode
  datatype Stream = Stream(tab: string, mode: Mode)
  datatype Lease = Lease(writable: bool, epoch: nat)

  /** `leases` is the last lease message the client was sent for each tab. */
  datatype Client = Client(id: string, open: bool, streams: seq<Stream>, leases: map<string, Lease>)

  /** `named` remembers which owner each epoch of each tab was ever announced for. */
  datatype Server = Server(clients: seq<Client>, owners: map<string, string>, epochs: map<string, nat>,
      named: map<(string, nat), string>)

  const EMPTY := Server([], map[], map[], map[])

  function ModeOf(streams: seq<Stream>, tab: string): Option<Mode> {
    if streams == [] then None else if streams[0].tab == tab then Some(streams[0].mode) else ModeOf(streams[1..], tab)
  }

  /** The tabs followed in raw mode, in order. */
  function RawTabs(streams: seq<Stream>): (r: seq<string>)
    ensures forall t :: ModeOf(streams, t) == Some(RawMode) ==> t in r
  {
    if streams == [] then []
    else (if streams[0].mode.RawMode? then [streams[0].tab] else []) + RawTabs(streams[1..])
  }

  predicate IsOpenRaw(c: Client, tab: string) { c.open && ModeOf(c.streams, tab) == Some(RawMode) }

  /** The ids of the open raw subscribers, oldest connection first. */
  function RawIds(clients: seq<Client>, tab: string): (r: seq<string>)
    ensures forall id :: id in r <==> exists c :: c in clients && c.id == id && IsOpenRaw(c, tab)
  {
    if clients == [] then []
    else (if IsOpenRaw(clients[0], tab) then [clients[0].id] else []) + RawIds(clients[1..], tab)
  }

  function OwnerOf(s: Server, tab: string): Option<string> { if tab in s.owners then Some(s.owners[tab]) else None }
  function EpochOf(s: Server, tab: string): nat { if tab in s.epochs then s.epochs[tab] else 0 }

  function NextOwner(s: Server, tab: string): Option<string> {
    var raws := RawIds(s.clients, tab);
    var previous := OwnerOf(s, tab);
    if previous.Some? && previous.value in raws then previous
    else if raws == [] then None
    else Some(raws[0])
  }

  function Told(c: Client, tab: string, owner: Option<string>, epoch: nat): Client {
    if IsOpenRaw(c, tab) then c.(leases := c.leases[tab := Lease(owner == Some(c.id), epoch)]) else c
  }

  function TellAll(clients: seq<Client>, tab: string, owner: Option<string>, epoch: nat): (r: seq<Client>)
    ensures |r| == |clients| && forall i :: 0 <= i < |r| ==> r[i] == Told(clients[i], tab, owner, epoch)
  {
    seq(|clients|, i requires 0 <= i < |clients| => Told(clients[i], tab, owner, epoch))
  }

  function Refreshed(s: Server, tab: string): Server {
    var owner := NextOwner(s, tab);
    var epoch := EpochOf(s, tab) + if owner == OwnerOf(s, tab) then 0 else 1;
    Server(
      TellAll(s.clients, tab, owner, epoch),
      if owner.Some? then s.owners[tab := owner.value] else s.owners - {tab},
      s.epochs[tab := epoch],
      if owner.Some? then s.named[(tab, epoch) := owner.value] else s.named)
  }

  function RefreshedAll(s: Server, tabs: seq<string>): Server {
    if tabs == [] then s else Refreshed(RefreshedAll(s, tabs[..|tabs| - 1]), tabs[|tabs| - 1])
  }

  function IndexOf(clients: seq<Client>, id: string): (i: nat)
    ensures i <= |clients| && (i < |clients| ==> clients[i].id == id)
    ensures i == |clients| ==> forall c :: c in clients ==> c.id != id
  {
    if clients == [] || clients[0].id == id then 0 else 1 + IndexOf(clients[1..], id)
  }

  datatype Step =
    | Connect(id: string)
    | Subscribe(id: string, streams: seq<Stream>)
    | Closing(id: string)
    | Close(id: string)
    | Refresh(tabs: seq<string>)

  function Apply(s: Server, step: Step): Server {
    match step
    case Connect(id) => if IndexOf(s.clients, id) < |s.clients| then s
        else s.(clients := s.clients + [Client(id, true, [], map[])])
    case Subscribe(id, streams) =>
      var i := IndexOf(s.clients, id);
      if i == |s.clients| then s
      else RefreshedAll(s.(clients := s.clients[i := s.clients[i].(streams := streams)]),
          RawTabs(s.clients[i].streams) + RawTabs(streams))
    case Closing(id) =>
      var i := IndexOf(s.clients, id);
      if i == |s.clients| then s else s.(clients := s.clients[i := s.clients[i].(open := false)])
    case Close(id) =>
      var i := IndexOf(s.clients, id);
      if i == |s.clients| then s
      else RefreshedAll(s.(clients := s.clients[..i] + s.clients[i + 1..]), RawTabs(s.clients[i].streams))
    case Refresh(tabs) => RefreshedAll(s, tabs)
  }

  /** Input is written for any projection subscriber, and for the raw subscriber that holds the lease. */
  predicate AcceptsInput(s: Server, c: Client, tab: string) {
    var mode := ModeOf(c.streams, tab);
    mode.Some? && (mode.value.RawMode? ==> OwnerOf(s, tab) == Some(c.id))
  }

  predicate AcceptsResize(s: Server, c: Client, tab: string) {
    ModeOf(c.streams, tab) == Some(RawMode) && OwnerOf(s, tab) == Some(c.id)
  }

  // ------------------------------------------------------------------ as the server does it

  class LeaseServer {
    var clients: seq<Client>
    var rawResponderOwners: map<string, string>
    var responderLeaseEpochs: map<string, nat>
    ghost var named: map<(string, nat), string>

    ghost function Now(): Server
      reads this
    {
      Server(clients, rawResponderOwners, responderLeaseEpochs, named)
    }

    constructor ()
      ensures Now() == EMPTY
    {
      clients, rawResponderOwners, responderLeaseEpochs, named := [], map[], map[], map[];
    }

    method RefreshResponderLease(tab: string)
      modifies this
      ensures Now() == Refreshed(old(Now()), tab)
    {
      var raws := RawIds(clients, tab);
      var previous: Option<string> := if tab in rawResponderOwners then Some(rawResponderOwners[tab]) else None;
      var owner := if previous.Some? && previous.value in raws then previous else if |raws| == 0 then None
          else Some(raws[0]);
      var last := if tab in responderLeaseEpochs then responderLeaseEpochs[tab] else 0;
      if owner.Some? { rawResponderOwners := rawResponderOwners[tab := owner.value]; }
      else { rawResponderOwners := rawResponderOwners - {tab}; }
      var epoch := if owner == previous then last else last + 1;
      responderLeaseEpochs := responderLeaseEpochs[tab := epoch];
      if owner.Some? { named := named[(tab, epoch) := owner.value]; }
      TellRawClients(tab, owner, epoch);
    }

    method TellRawClients(tab: string, owner: Option<string>, epoch: nat)
      modifies this`clients
      ensures clients == TellAll(old(clients), tab, owner, epoch)
    {
      ghost var before := clients;
      for k := 0 to |clients|
        invariant |clients| == |before|
        invariant forall i :: 0 <= i < |before| ==> clients[i] == if i < k then Told(before[i], tab, owner, epoch)
                                                    else before[i]
      {
        var c := clients[k];
        if c.open && ModeOf(c.streams, tab) == Some(RawMode) {
          clients := clients[k := c.(leases := c.leases[tab := Lease(owner == Some(c.id), epoch)])];
        }
      }
    }

    method RefreshTabs(tabs: seq<string>)
      modifies this
      ensures Now() == RefreshedAll(old(Now()), tabs)
    {
      for k := 0 to |tabs|
        invariant Now() == RefreshedAll(old(Now()), tabs[..k])
      {
        assert tabs[..k + 1][..k] == tabs[..k];
        RefreshResponderLease(tabs[k]);
      }
      assert tabs[..|tabs|] == tabs;
    }

    method OnSubscribe(id: string, streams: seq<Stream>)
      modifies this
      ensures Now() == Apply(old(Now()), Subscribe(id, streams))
    {
      var i := IndexOf(clients, id);
      if i == |clients| { return; }
      ghost var before := Now();
      var previousRawTabs := RawTabs(clients[i].streams);
      clients := clients[i := clients[i].(streams := streams)];
      assert Now() == before.(clients := before.clients[i := before.clients[i].(streams := streams)]);
      RefreshTabs(previousRawTabs + RawTabs(streams));
    }

    method OnClose(id: string)
      modifies this
      ensures Now() == Apply(old(Now()), Close(id))
    {
      var i := IndexOf(clients, id);
      if i == |clients| { return; }
      ghost var before := Now();
      var rawTabs := RawTabs(clients[i].streams);
      clients := clients[..i] + clients[i + 1..];
      assert Now() == before.(clients := before.clients[..i] + before.clients[i + 1..]);
      RefreshTabs(rawTabs);
    }
  }

  // ------------------------------------------------------------------ what every run keeps

  predicate DistinctIds(clients: seq<Client>)
  {
    forall i, j :: 0 <= i < j < |clients| ==> clients[i].id != clients[j].id
  }

  /** An epoch names its owner, the present one the present owner, and later ones nobody yet. */
  ghost predicate EpochsOk(s: Server, tab: string) {
    && (forall k :: (tab, k) in s.named ==> k <= EpochOf(s, tab))
    && (if OwnerOf(s, tab).Some? then (tab, EpochOf(s, tab)) in s.named
        && s.named[(tab, EpochOf(s, tab))] == OwnerOf(s, tab).value
        else (tab, EpochOf(s, tab)) !in s.named)
  }

  /**
   * The owner is a client that follows the tab in raw mode, there is one if anyone open does, and everyone
   * open knows.
   */
  ghost predicate LeaseOk(s: Server, tab: string) {
    && (OwnerOf(s, tab).Some? ==> exists c :: c in s.clients && c.id == OwnerOf(s, tab).value
                                              && ModeOf(c.streams, tab) == Some(RawMode))
    && (forall c :: c in s.clients && IsOpenRaw(c, tab) ==>
          && OwnerOf(s, tab).Some?
          && tab in c.leases && c.leases[tab] == Lease(OwnerOf(s, tab) == Some(c.id), EpochOf(s, tab)))
  }

  ghost predicate Inv(s: Server) {
    DistinctIds(s.clients) && forall tab :: EpochsOk(s, tab) && LeaseOk(s, tab)
  }

  /** Everyone open who follows the tab has been told. */
  lemma {:induction false} EveryoneIsTold(clients: seq<Client>, tab: string, owner: Option<string>, epoch: nat,
      c: Client)
    requires c in TellAll(clients, tab, owner, epoch) && IsOpenRaw(c, tab)
    ensures tab in c.leases && c.leases[tab] == Lease(owner == Some(c.id), epoch) && c.id in RawIds(clients, tab)
  {
    var told := TellAll(clients, tab, owner, epoch);
    var i :| 0 <= i < |told| && told[i] == c;
    assert told[i] == Told(clients[i], tab, owner, epoch);
    assert clients[i] in clients && IsOpenRaw(clients[i], tab);
  }

  lemma {:induction false} NextOwnerIsOpen(clients: seq<Client>, tab: string, id: string, owner: Option<string>,
      epoch: nat)
    requires id in RawIds(clients, tab)
    ensures exists c :: c in TellAll(clients, tab, owner, epoch) && c.id == id && IsOpenRaw(c, tab)
  {
    var told := TellAll(clients, tab, owner, epoch);
    var c :| c in clients && c.id == id && IsOpenRaw(c, tab);
    var i :| 0 <= i < |clients| && clients[i] == c;
    assert told[i] == Told(c, tab, owner, epoch) && told[i] in told;
  }

  /** A refresh puts its own tab in order, whatever was wrong with its lease. */
  lemma {:induction false} RefreshMends(s: Server, tab: string)
    requires DistinctIds(s.clients) && EpochsOk(s, tab)
    ensures var r := Refreshed(s, tab); DistinctIds(r.clients) && EpochsOk(r, tab) && LeaseOk(r, tab)
  {
    var r := Refreshed(s, tab);
    var owner, epoch := NextOwner(s, tab), EpochOf(r, tab);
    if owner.Some? { NextOwnerIsOpen(s.clients, tab, owner.value, owner, epoch); }
    forall c | c in r.clients && IsOpenRaw(c, tab)
      ensures owner.Some? && tab in c.leases && c.leases[tab] == Lease(owner == Some(c.id), epoch)
    {
      EveryoneIsTold(s.clients, tab, owner, epoch, c);
    }
  }

  lemma {:induction false} RefreshSpares(s: Server, tab: string, other: string)
    requires other != tab
    ensures EpochsOk(s, other) ==> EpochsOk(Refreshed(s, tab), other)
    ensures LeaseOk(s, other) ==> LeaseOk(Refreshed(s, tab), other)
  {
  }

  /** Tabs are put in order one after the other; those not refreshed must be in order already. */
  lemma {:induction false} RefreshAllMends(s: Server, tabs: seq<string>)
    requires DistinctIds(s.clients) && (forall t :: EpochsOk(s, t)) && forall t :: t !in tabs ==> LeaseOk(s, t)
    ensures Inv(RefreshedAll(s, tabs))
  {
    RefreshSome(s, tabs, |tabs|);
    assert tabs[..|tabs|] == tabs;
  }

  lemma {:induction false} RefreshSome(s: Server, tabs: seq<string>, n: nat)
    requires n <= |tabs|
    requires DistinctIds(s.clients) && (forall t :: EpochsOk(s, t)) && forall t :: t !in tabs ==> LeaseOk(s, t)
    ensures var r := RefreshedAll(s, tabs[..n]);
      DistinctIds(r.clients) && (forall t :: EpochsOk(r, t)) && forall t :: t !in tabs || t in tabs[..n]
                                                                            ==> LeaseOk(r, t)
  {
    if n > 0 {
      RefreshSome(s, tabs, n - 1);
      assert tabs[..n][..n - 1] == tabs[..n - 1] && tabs[..n] == tabs[..n - 1] + [tabs[n - 1]];
      var before, tab := RefreshedAll(s, tabs[..n - 1]), tabs[n - 1];
      RefreshMends(before, tab);
      forall t | t != tab
        ensures EpochsOk(Refreshed(before, tab), t) && (LeaseOk(before, t) ==> LeaseOk(Refreshed(before, tab), t))
      {
        RefreshSpares(before, tab, t);
      }
    }
  }

  /** A client's new list of streams matters only for tabs it followed or follows in raw mode. */
  lemma {:induction false} StreamsChanged(s: Server, i: nat, streams: seq<Stream>, tab: string)
    requires Inv(s) && i < |s.clients|
    requires ModeOf(s.clients[i].streams, tab) != Some(RawMode) && ModeOf(streams, tab) != Some(RawMode)
    ensures LeaseOk(s.(clients := s.clients[i := s.clients[i].(streams := streams)]), tab)
  {
    var r := s.(clients := s.clients[i := s.clients[i].(streams := streams)]);
    assert LeaseOk(s, tab);
    if OwnerOf(s, tab).Some? {
      var c :| c in s.clients && c.id == OwnerOf(s, tab).value && ModeOf(c.streams, tab) == Some(RawMode);
      var j :| 0 <= j < |s.clients| && s.clients[j] == c;
      assert r.clients[j] == c && c in r.clients;
    }
    forall c | c in r.clients && IsOpenRaw(c, tab) ensures c in s.clients {
      var j :| 0 <= j < |r.clients| && r.clients[j] == c;
      assert j != i;
    }
  }

  lemma {:induction false} ClientGone(s: Server, i: nat, tab: string)
    requires Inv(s) && i < |s.clients| && ModeOf(s.clients[i].streams, tab) != Some(RawMode)
    ensures LeaseOk(s.(clients := s.clients[..i] + s.clients[i + 1..]), tab)
  {
    var r := s.(clients := s.clients[..i] + s.clients[i + 1..]);
    assert LeaseOk(s, tab);
    if OwnerOf(s, tab).Some? {
      var c :| c in s.clients && c.id == OwnerOf(s, tab).value && ModeOf(c.streams, tab) == Some(RawMode);
      var j :| 0 <= j < |s.clients| && s.clients[j] == c;
      assert r.clients[if j < i then j else j - 1] == c;
    }
    forall c | c in r.clients ensures c in s.clients { }
  }

  lemma {:induction false} SocketClosing(s: Server, i: nat, tab: string)
    requires Inv(s) && i < |s.clients|
    ensures LeaseOk(s.(clients := s.clients[i := s.clients[i].(open := false)]), tab)
  {
    var r := s.(clients := s.clients[i := s.clients[i].(open := false)]);
    assert LeaseOk(s, tab);
    if OwnerOf(s, tab).Some? {
      var c :| c in s.clients && c.id == OwnerOf(s, tab).value && ModeOf(c.streams, tab) == Some(RawMode);
      var j :| 0 <= j < |s.clients| && s.clients[j] == c;
      assert r.clients[j] in r.clients && r.clients[j].id == c.id && r.clients[j].streams == c.streams;
    }
    forall c | c in r.clients && IsOpenRaw(c, tab) ensures c in s.clients {
      var j :| 0 <= j < |r.clients| && r.clients[j] == c;
      assert j != i;
    }
  }

  lemma {:induction false} ConnectInv(s: Server, id: string)
    requires Inv(s)
    ensures Inv(Apply(s, Connect(id)))
  {
    var r := Apply(s, Connect(id));
    forall tab ensures LeaseOk(r, tab) && EpochsOk(r, tab) {
      assert LeaseOk(s, tab) && EpochsOk(s, tab);
      if OwnerOf(s, tab).Some? {
        var c :| c in s.clients && c.id == OwnerOf(s, tab).value && ModeOf(c.streams, tab) == Some(RawMode);
        assert c in r.clients;
      }
    }
  }

  lemma {:induction false} SubscribeInv(s: Server, id: string, streams: seq<Stream>)
    requires Inv(s)
    ensures Inv(Apply(s, Subscribe(id, streams)))
  {
    var i := IndexOf(s.clients, id);
    if i < |s.clients| {
      var u := s.(clients := s.clients[i := s.clients[i].(streams := streams)]);
      var tabs := RawTabs(s.clients[i].streams) + RawTabs(streams);
      forall t ensures EpochsOk(u, t) && (t !in tabs ==> LeaseOk(u, t)) {
        assert EpochsOk(s, t);
        if t !in tabs { StreamsChanged(s, i, streams, t); }
      }
      RefreshAllMends(u, tabs);
    }
  }

  lemma {:induction false} ClosingInv(s: Server, id: string)
    requires Inv(s)
    ensures Inv(Apply(s, Closing(id)))
  {
    var i := IndexOf(s.clients, id);
    if i < |s.clients| {
      var r := Apply(s, Closing(id));
      forall tab ensures LeaseOk(r, tab) && EpochsOk(r, tab) {
        assert EpochsOk(s, tab);
        SocketClosing(s, i, tab);
      }
    }
  }

  lemma {:induction false} CloseInv(s: Server, id: string)
    requires Inv(s)
    ensures Inv(Apply(s, Close(id)))
  {
    var i := IndexOf(s.clients, id);
    if i < |s.clients| {
      var u := s.(clients := s.clients[..i] + s.clients[i + 1..]);
      var tabs := RawTabs(s.clients[i].streams);
      forall t ensures EpochsOk(u, t) && (t !in tabs ==> LeaseOk(u, t)) {
        assert EpochsOk(s, t);
        if t !in tabs { ClientGone(s, i, t); }
      }
      RefreshAllMends(u, tabs);
    }
  }

  lemma {:induction false} StepInv(s: Server, step: Step)
    requires Inv(s)
    ensures Inv(Apply(s, step))
  {
    match step
    case Connect(id) => ConnectInv(s, id);
    case Subscribe(id, streams) => SubscribeInv(s, id, streams);
    case Closing(id) => ClosingInv(s, id);
    case Close(id) => CloseInv(s, id);
    case Refresh(tabs) => RefreshAllMends(s, tabs);
  }

  function Run(steps: seq<Step>): Server {
    if steps == [] then EMPTY else Apply(Run(steps[..|steps| - 1]), steps[|steps| - 1])
  }

  /**
   * After any connects, subscriptions, unsubscriptions and closes: a tab's owner follows it in raw
   * mode on a connection that is still known, there is an owner whenever an open connection does,
   * and the last lease message of every such connection says whether it is the owner, and of which epoch.
   */
  lemma {:induction false} InvAlways(steps: seq<Step>)
    ensures Inv(Run(steps))
  {
    if steps == [] {
      forall tab ensures EpochsOk(EMPTY, tab) && LeaseOk(EMPTY, tab) { }
    } else {
      InvAlways(steps[..|steps| - 1]);
      StepInv(Run(steps[..|steps| - 1]), steps[|steps| - 1]);
    }
  }

  /** At most one raw subscriber of a tab may type or resize, and every open one has been told whether it is the one. */
  lemma {:induction false} SingleWriter(steps: seq<Step>, tab: string, a: Client, b: Client)
    requires a in Run(steps).clients && b in Run(steps).clients
    requires ModeOf(a.streams, tab) == Some(RawMode) && ModeOf(b.streams, tab) == Some(RawMode)
    ensures AcceptsInput(Run(steps), a, tab) && AcceptsInput(Run(steps), b, tab) ==> a == b
    ensures a.open ==> tab in a.leases && (a.leases[tab].writable <==> AcceptsInput(Run(steps), a, tab))
    ensures AcceptsResize(Run(steps), a, tab) <==> AcceptsInput(Run(steps), a, tab)
  {
    InvAlways(steps);
    assert LeaseOk(Run(steps), tab);
  }

  /** Some open raw subscriber can type unless the owner's own socket is already closing. */
  lemma {:induction false} SomeoneCanType(steps: seq<Step>, tab: string, c: Client)
    requires c in Run(steps).clients && IsOpenRaw(c, tab)
    ensures exists o :: o in Run(steps).clients && AcceptsInput(Run(steps), o, tab) && AcceptsResize(Run(steps), o, tab)
  {
    InvAlways(steps);
    assert LeaseOk(Run(steps), tab);
    var o :| o in Run(steps).clients && o.id == OwnerOf(Run(steps), tab).value
        && ModeOf(o.streams, tab) == Some(RawMode);
    assert AcceptsInput(Run(steps), o, tab);
  }

  // ------------------------------------------------------------------ when the owner changes

  /** Lease messages change nobody's subscriptions. */
  lemma {:induction false} TellKeepsRawIds(clients: seq<Client>, told: string, owner: Option<string>, epoch: nat,
      tab: string)
    ensures RawIds(TellAll(clients, told, owner, epoch), tab) == RawIds(clients, tab)
  {
    if clients != [] {
      TellKeepsRawIds(clients[1..], told, owner, epoch, tab);
      assert TellAll(clients, told, owner, epoch)[1..] == TellAll(clients[1..], told, owner, epoch);
    }
  }

  lemma {:induction false} RefreshKeepsRawIds(s: Server, tabs: seq<string>, tab: string)
    ensures RawIds(RefreshedAll(s, tabs).clients, tab) == RawIds(s.clients, tab)
  {
    if tabs != [] {
      var before, last := RefreshedAll(s, tabs[..|tabs| - 1]), tabs[|tabs| - 1];
      RefreshKeepsRawIds(s, tabs[..|tabs| - 1], tab);
      var owner := NextOwner(before, last);
      TellKeepsRawIds(before.clients, last, owner, EpochOf(before, last) + if owner == OwnerOf(before, last) then 0
          else 1, tab);
    }
  }

  /** However often tabs are refreshed, an owner that is still an open raw subscriber stays the owner. */
  lemma {:induction false} OwnerStays(s: Server, tabs: seq<string>, tab: string)
    requires OwnerOf(s, tab).Some? && OwnerOf(s, tab).value in RawIds(s.clients, tab)
    ensures OwnerOf(RefreshedAll(s, tabs), tab) == OwnerOf(s, tab)
  {
    if tabs != [] {
      var n := |tabs| - 1;
      OwnerStays(s, tabs[..n], tab);
      RefreshKeepsRawIds(s, tabs[..n], tab);
    }
  }

  /** Where a step changes the clients, before it refreshes any tab. */
  function Arranged(s: Server, step: Step): Server {
    match step
    case Connect(id) => Apply(s, step)
    case Closing(id) => Apply(s, step)
    case Subscribe(id, streams) =>
      var i := IndexOf(s.clients, id);
      if i == |s.clients| then s else s.(clients := s.clients[i := s.clients[i].(streams := streams)])
    case Close(id) =>
      var i := IndexOf(s.clients, id);
      if i == |s.clients| then s else s.(clients := s.clients[..i] + s.clients[i + 1..])
    case Refresh(_) => s
  }

  function RefreshedTabs(s: Server, step: Step): seq<string> {
    match step
    case Subscribe(id, streams) =>
      var i := IndexOf(s.clients, id);
      if i == |s.clients| then [] else RawTabs(s.clients[i].streams) + RawTabs(streams)
    case Close(id) =>
      var i := IndexOf(s.clients, id);
      if i == |s.clients| then [] else RawTabs(s.clients[i].streams)
    case Refresh(tabs) => tabs
    case _ => []
  }

  /** The owner of a tab changes only when the old owner is no longer an open raw subscriber of it. */
  lemma {:induction false} OwnerChangesWhenItLeaves(s: Server, step: Step, tab: string)
    requires OwnerOf(s, tab).Some? && OwnerOf(Apply(s, step), tab) != OwnerOf(s, tab)
    ensures OwnerOf(s, tab).value !in RawIds(Apply(s, step).clients, tab)
  {
    var u, tabs := Arranged(s, step), RefreshedTabs(s, step);
    assert Apply(s, step) == RefreshedAll(u, tabs);
    RefreshKeepsRawIds(u, tabs, tab);
    if OwnerOf(s, tab).value in RawIds(u.clients, tab) { OwnerStays(u, tabs, tab); }
  }

  /** What was announced for an epoch is never announced differently. */
  ghost predicate Extends(a: Server, b: Server)
  {
    forall key :: key in a.named ==> key in b.named && b.named[key] == a.named[key]
  }

  lemma {:induction false} RefreshExtends(s: Server, tab: string)
    requires EpochsOk(s, tab)
    ensures Extends(s, Refreshed(s, tab))
  {
  }

  lemma {:induction false} RefreshAllExtends(s: Server, tabs: seq<string>)
    requires forall t :: EpochsOk(s, t)
    ensures Extends(s, RefreshedAll(s, tabs)) && forall t :: EpochsOk(RefreshedAll(s, tabs), t)
  {
    if tabs != [] {
      var n := |tabs| - 1;
      RefreshAllExtends(s, tabs[..n]);
      var before := RefreshedAll(s, tabs[..n]);
      RefreshExtends(before, tabs[n]);
      forall t ensures EpochsOk(Refreshed(before, tabs[n]), t) {
        if t != tabs[n] { RefreshSpares(before, tabs[n], t); }
      }
    }
  }

  lemma {:induction false} StepExtends(s: Server, step: Step)
    requires Inv(s)
    ensures Extends(s, Apply(s, step))
  {
    var u := Arranged(s, step);
    forall t ensures EpochsOk(u, t) { assert EpochsOk(s, t); }
    RefreshAllExtends(u, RefreshedTabs(s, step));
    assert Apply(s, step) == RefreshedAll(u, RefreshedTabs(s, step));
  }

  /** One (tab, epoch) never names two owners, from any point of a run to any later one. */
  lemma {:induction false} EpochNamesOneOwner(steps: seq<Step>, n: nat)
    requires n <= |steps|
    ensures Extends(Run(steps[..n]), Run(steps))
  {
    if n == |steps| {
      assert steps[..n] == steps;
    } else {
      var m := |steps| - 1;
      EpochNamesOneOwner(steps[..m], n);
      assert steps[..m][..n] == steps[..n];
      InvAlways(steps[..m]);
      StepExtends(Run(steps[..m]), steps[m]);
    }
  }

  // ------------------------------------------------------------------ between the check and the write

  /** Refreshing keeps owner and epoch, or the owner has left and another, or nobody, has a later epoch. */
  lemma {:induction false} EpochMoves(s: Server, tabs: seq<string>, tab: string)
    ensures
      var r := RefreshedAll(s, tabs);
      || (OwnerOf(r, tab) == OwnerOf(s, tab) && EpochOf(r, tab) == EpochOf(s, tab))
      || (&& EpochOf(r, tab) > EpochOf(s, tab)
          && (OwnerOf(s, tab).Some? ==> OwnerOf(s, tab).value !in RawIds(s.clients, tab))
          && (OwnerOf(r, tab).Some? ==> OwnerOf(r, tab).value in RawIds(s.clients, tab)))
  {
    if tabs != [] {
      var n := |tabs| - 1;
      EpochMoves(s, tabs[..n], tab);
      RefreshKeepsRawIds(s, tabs[..n], tab);
    }
  }

  /** A step never takes a tab's epoch back, and leaves it exactly if it leaves the owner, if there is one. */
  lemma {:induction false} StepEpoch(s: Server, step: Step, tab: string)
    ensures EpochOf(Apply(s, step), tab) >= EpochOf(s, tab)
    ensures OwnerOf(s, tab).Some? ==>
      (OwnerOf(Apply(s, step), tab) == OwnerOf(s, tab) <==> EpochOf(Apply(s, step), tab) == EpochOf(s, tab))
  {
    var u := Arranged(s, step);
    assert OwnerOf(u, tab) == OwnerOf(s, tab) && EpochOf(u, tab) == EpochOf(s, tab);
    EpochMoves(u, RefreshedTabs(s, step), tab);
    assert Apply(s, step) == RefreshedAll(u, RefreshedTabs(s, step));
  }

  /** This client has held the tab's lease ever since the first `n` steps. */
  ghost predicate HeldSince(steps: seq<Step>, n: nat, tab: string, id: string)
    decreases |steps|
  {
    OwnerOf(Run(steps), tab) == Some(id) && (|steps| <= n || HeldSince(steps[..|steps| - 1], n, tab, id))
  }

  /** The same, of the last step of a run. */
  lemma {:induction false} LastEpoch(steps: seq<Step>, tab: string)
    requires steps != []
    ensures
      var before := steps[..|steps| - 1];
      && EpochOf(Run(steps), tab) >= EpochOf(Run(before), tab)
      && (OwnerOf(Run(before), tab).Some? ==>
            (OwnerOf(Run(steps), tab) == OwnerOf(Run(before), tab)
             <==> EpochOf(Run(steps), tab) == EpochOf(Run(before), tab)))
  {
    StepEpoch(Run(steps[..|steps| - 1]), steps[|steps| - 1], tab);
  }

  lemma {:induction false} EpochSince(steps: seq<Step>, n: nat, tab: string)
    requires n <= |steps|
    ensures EpochOf(Run(steps), tab) >= EpochOf(Run(steps[..n]), tab)
  {
    if n == |steps| {
      assert steps[..n] == steps;
    } else {
      var m := |steps| - 1;
      EpochSince(steps[..m], n, tab);
      assert steps[..m][..n] == steps[..n];
      LastEpoch(steps, tab);
    }
  }

  /**
   * An input is checked against the lease before an await and written after it. Its sender has held the lease all
   * the while if and only if the tab's epoch is still the one of the check.
   */
  lemma {:induction false} WriteAfterCheck(steps: seq<Step>, n: nat, tab: string, id: string)
    requires n <= |steps| && OwnerOf(Run(steps[..n]), tab) == Some(id)
    ensures HeldSince(steps, n, tab, id) <==> EpochOf(Run(steps), tab) == EpochOf(Run(steps[..n]), tab)
    ensures HeldSince(steps, n, tab, id) ==> OwnerOf(Run(steps), tab) == Some(id)
    decreases |steps|
  {
    if n == |steps| {
      assert steps[..n] == steps;
    } else {
      var m := |steps| - 1;
      assert steps[..m][..n] == steps[..n];
      WriteAfterCheck(steps[..m], n, tab, id);
      EpochSince(steps[..m], n, tab);
      LastEpoch(steps, tab);
    }
  }

  /** Inputs checked at any two moments under one epoch are one client's, whenever they are written. */
  lemma {:induction false} OneEpochOneWriter(steps: seq<Step>, n: nat, tab: string, a: string, b: string)
    requires n <= |steps| && OwnerOf(Run(steps[..n]), tab) == Some(a) && OwnerOf(Run(steps), tab) == Some(b)
    requires EpochOf(Run(steps[..n]), tab) == EpochOf(Run(steps), tab)
    ensures a == b
  {
    WriteAfterCheck(steps, n, tab, a);
  }
}
