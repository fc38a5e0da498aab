/** What each event leaves of the clients, and who holds a tab's lease afterwards. */
module LeaseOutcomes {
  import opened Common
  import opened ResponderLease

  // ------------------------------------------------------------------ clients

  /** A client but for the lease messages it was sent. */
  datatype Bare = Bare(id: string, open: bool, streams: seq<Stream>)

  function BareOf(c: Client): Bare { Bare(c.id, c.open, c.streams) }

  /** The same connections, with the same subscriptions, in the same order. */
  predicate SameClients(a: seq<Client>, b: seq<Client>) {
    |a| == |b| && forall i :: 0 <= i < |a| ==> BareOf(a[i]) == BareOf(b[i])
  }

  lemma {:induction false} RefreshKeepsClients(s: Server, tabs: seq<string>)
    ensures SameClients(RefreshedAll(s, tabs).clients, s.clients)
  {
    if tabs != [] { RefreshKeepsClients(s, tabs[..|tabs| - 1]); }
  }

  predicate Connected(clients: seq<Client>, id: string) { exists c :: c in clients && c.id == id }

  predicate DistinctClients(clients: seq<Client>) {
    forall i, j :: 0 <= i < j < |clients| ==> clients[i].id != clients[j].id
  }

  lemma {:induction false} IndexIs(clients: seq<Client>, i: nat)
    requires DistinctClients(clients) && i < |clients|
    ensures IndexOf(clients, clients[i].id) == i
  {
    assert clients[i] in clients;
  }

  /** A new connection comes last, open and following nothing; one that is known changes nothing. */
  lemma ConnectOutcome(s: Server, id: string)
    ensures
      var v := Apply(s, Connect(id));
      if Connected(s.clients, id) then v == s
      else v == s.(clients := v.clients) && v.clients == s.clients + [Client(id, true, [], map[])]
  {
  }

  /** A subscription replaces what its client followed, a closing socket is not open, and nobody else is touched. */
  lemma {:induction false} ClientOutcome(s: Server, i: nat, streams: seq<Stream>)
    requires DistinctClients(s.clients) && i < |s.clients|
    ensures
      var c := s.clients[i];
      && SameClients(Apply(s, Subscribe(c.id, streams)).clients, s.clients[i := c.(streams := streams)])
      && Apply(s, Closing(c.id)) == s.(clients := s.clients[i := c.(open := false)])
      && SameClients(Apply(s, Close(c.id)).clients, s.clients[..i] + s.clients[i + 1..])
  {
    var c := s.clients[i];
    IndexIs(s.clients, i);
    RefreshKeepsClients(s.(clients := s.clients[i := c.(streams := streams)]), RawTabs(c.streams) + RawTabs(streams));
    RefreshKeepsClients(s.(clients := s.clients[..i] + s.clients[i + 1..]), RawTabs(c.streams));
  }

  /** An event of a client that is not known changes nothing. */
  lemma UnknownClient(s: Server, id: string, streams: seq<Stream>)
    requires !Connected(s.clients, id)
    ensures Apply(s, Subscribe(id, streams)) == s && Apply(s, Closing(id)) == s && Apply(s, Close(id)) == s
  {
    forall k | 0 <= k < |s.clients| ensures s.clients[k].id != id { assert s.clients[k] in s.clients; }
  }

  // ------------------------------------------------------------------ owners

  /** This client follows the tab raw over an open socket. */
  predicate Follows(c: Client, tab: string) { c.open && ModeOf(c.streams, tab) == Some(RawMode) }

  /** The one that connected first of all that follow the tab raw. */
  ghost predicate Oldest(clients: seq<Client>, tab: string, id: string) {
    exists i :: 0 <= i < |clients| && clients[i].id == id && Follows(clients[i], tab)
                && forall j :: 0 <= j < i ==> !Follows(clients[j], tab)
  }

  predicate AnyFollows(clients: seq<Client>, tab: string) {
    exists i :: 0 <= i < |clients| && Follows(clients[i], tab)
  }

  predicate StillFollows(clients: seq<Client>, tab: string, id: string) {
    exists i :: 0 <= i < |clients| && clients[i].id == id && Follows(clients[i], tab)
  }

  /** The owner stays if it still follows the tab; else the oldest that does takes over, or nobody if none does. */
  ghost predicate Rightful(clients: seq<Client>, tab: string, before: Option<string>, after: Option<string>) {
    if before.Some? && StillFollows(clients, tab, before.value) then after == before
    else if AnyFollows(clients, tab) then after.Some? && Oldest(clients, tab, after.value)
    else after.None?
  }

  lemma {:induction false} RawIdsAre(clients: seq<Client>, tab: string, id: string)
    ensures id in RawIds(clients, tab) <==> StillFollows(clients, tab, id)
  {
    if c :| c in clients && c.id == id && IsOpenRaw(c, tab) {
      var i :| 0 <= i < |clients| && clients[i] == c;
      assert Follows(clients[i], tab);
    }
    if i :| 0 <= i < |clients| && clients[i].id == id && Follows(clients[i], tab) {
      assert clients[i] in clients && IsOpenRaw(clients[i], tab);
    }
  }

  lemma {:induction false} FirstRawIsOldest(clients: seq<Client>, tab: string)
    ensures RawIds(clients, tab) != [] ==> Oldest(clients, tab, RawIds(clients, tab)[0])
    ensures RawIds(clients, tab) == [] <==> !AnyFollows(clients, tab)
  {
    if clients != [] {
      var rest := clients[1..];
      FirstRawIsOldest(rest, tab);
      if !Follows(clients[0], tab) {
        assert forall i :: 0 < i < |clients| ==> clients[i] == rest[i - 1];
        assert forall i :: 0 <= i < |rest| ==> rest[i] == clients[i + 1];
        if RawIds(rest, tab) != [] {
          var id := RawIds(rest, tab)[0];
          var i :| 0 <= i < |rest| && rest[i].id == id && Follows(rest[i], tab)
                   && forall j :: 0 <= j < i ==> !Follows(rest[j], tab);
          assert clients[i + 1].id == id && Follows(clients[i + 1], tab);
        }
      }
    }
  }

  lemma {:induction false} NextIsRightful(s: Server, tab: string)
    ensures Rightful(s.clients, tab, OwnerOf(s, tab), NextOwner(s, tab))
  {
    FirstRawIsOldest(s.clients, tab);
    var owner := OwnerOf(s, tab);
    if owner.Some? { RawIdsAre(s.clients, tab, owner.value); }
  }

  lemma {:induction false} RightfulStays(a: seq<Client>, b: seq<Client>, tab: string, before: Option<string>,
      after: Option<string>)
    requires SameClients(a, b) && Rightful(a, tab, before, after)
    ensures Rightful(b, tab, before, after)
  {
    forall i | 0 <= i < |a| ensures a[i].id == b[i].id && Follows(a[i], tab) == Follows(b[i], tab) {
      assert BareOf(a[i]) == BareOf(b[i]);
    }
    if before.Some? { FollowsAlike(a, b, tab, before.value); }
    AnyAlike(a, b, tab);
    if after.Some? { OldestAlike(a, b, tab, after.value); }
  }

  ghost predicate Alike(a: seq<Client>, b: seq<Client>, tab: string) {
    |a| == |b| && forall i :: 0 <= i < |a| ==> a[i].id == b[i].id && Follows(a[i], tab) == Follows(b[i], tab)
  }

  lemma FollowsAlike(a: seq<Client>, b: seq<Client>, tab: string, id: string)
    requires Alike(a, b, tab)
    ensures StillFollows(a, tab, id) <==> StillFollows(b, tab, id)
  {
  }

  lemma AnyAlike(a: seq<Client>, b: seq<Client>, tab: string)
    requires Alike(a, b, tab)
    ensures AnyFollows(a, tab) <==> AnyFollows(b, tab)
  {
  }

  lemma OldestAlike(a: seq<Client>, b: seq<Client>, tab: string, id: string)
    requires Alike(a, b, tab)
    ensures Oldest(a, tab, id) ==> Oldest(b, tab, id)
  {
    if Oldest(a, tab, id) {
      var i :| 0 <= i < |a| && a[i].id == id && Follows(a[i], tab) && forall j :: 0 <= j < i ==> !Follows(a[j], tab);
      assert b[i].id == id && Follows(b[i], tab) && forall j :: 0 <= j < i ==> !Follows(b[j], tab);
    }
  }

  lemma RefreshedOwner(s: Server, refreshed: string, tab: string)
    ensures
      var v := Refreshed(s, refreshed);
      if refreshed == tab then OwnerOf(v, tab) == NextOwner(s, tab)
      else OwnerOf(v, tab) == OwnerOf(s, tab) && EpochOf(v, tab) == EpochOf(s, tab)
  {
  }

  /** A tab that is refreshed, however often, gets its rightful owner; the others keep theirs. */
  lemma {:induction false} OwnerOutcome(s: Server, tabs: seq<string>, tab: string)
    ensures
      var v := RefreshedAll(s, tabs);
      if tab in tabs then Rightful(s.clients, tab, OwnerOf(s, tab), OwnerOf(v, tab))
      else OwnerOf(v, tab) == OwnerOf(s, tab) && EpochOf(v, tab) == EpochOf(s, tab)
  {
    if tabs != [] {
      var n := |tabs| - 1;
      var u := RefreshedAll(s, tabs[..n]);
      OwnerOutcome(s, tabs[..n], tab);
      RefreshedOwner(u, tabs[n], tab);
      if tabs[n] == tab {
        RefreshKeepsClients(s, tabs[..n]);
        NextIsRightful(u, tab);
        RightfulStays(u.clients, s.clients, tab, OwnerOf(u, tab), NextOwner(u, tab));
        if tab in tabs[..n] { RightfulTwice(s.clients, tab, OwnerOf(s, tab), OwnerOf(u, tab), NextOwner(u, tab)); }
      }
    }
  }

  lemma RightfulTwice(clients: seq<Client>, tab: string, a: Option<string>, b: Option<string>, c: Option<string>)
    requires Rightful(clients, tab, a, b) && Rightful(clients, tab, b, c)
    ensures Rightful(clients, tab, a, c) && b == c
  {
  }

  lemma {:induction false} RawTabsAre(streams: seq<Stream>, tab: string)
    ensures tab in RawTabs(streams) <==> Stream(tab, RawMode) in streams
  {
    if streams != [] { RawTabsAre(streams[1..], tab); }
  }

  /**
   * After a subscription every tab that its client followed raw, or follows raw now, has its rightful owner; every
   * other tab keeps the owner it has.
   */
  lemma {:induction false} SubscribeOutcome(s: Server, i: nat, streams: seq<Stream>, tab: string)
    requires DistinctClients(s.clients) && i < |s.clients|
    ensures
      var c := s.clients[i];
      var v := Apply(s, Subscribe(c.id, streams));
      if Stream(tab, RawMode) in c.streams || Stream(tab, RawMode) in streams
      then Rightful(s.clients[i := c.(streams := streams)], tab, OwnerOf(s, tab), OwnerOf(v, tab))
      else OwnerOf(v, tab) == OwnerOf(s, tab)
  {
    var c := s.clients[i];
    IndexIs(s.clients, i);
    RawTabsAre(c.streams, tab);
    RawTabsAre(streams, tab);
    OwnerOutcome(s.(clients := s.clients[i := c.(streams := streams)]), RawTabs(c.streams) + RawTabs(streams), tab);
  }

  /** So it is after a close, of the tabs the client followed raw. */
  lemma {:induction false} CloseOutcome(s: Server, i: nat, tab: string)
    requires DistinctClients(s.clients) && i < |s.clients|
    ensures
      var c := s.clients[i];
      var v := Apply(s, Close(c.id));
      if Stream(tab, RawMode) in c.streams
      then Rightful(s.clients[..i] + s.clients[i + 1..], tab, OwnerOf(s, tab), OwnerOf(v, tab))
      else OwnerOf(v, tab) == OwnerOf(s, tab)
  {
    var c := s.clients[i];
    IndexIs(s.clients, i);
    RawTabsAre(c.streams, tab);
    OwnerOutcome(s.(clients := s.clients[..i] + s.clients[i + 1..]), RawTabs(c.streams), tab);
  }

  /** Whoever does not follow any of the tabs that are refreshed is told nothing. */
  lemma {:induction false} OthersAreNotTold(s: Server, tabs: seq<string>, i: nat)
    requires i < |s.clients| && forall tab :: tab in tabs ==> !Follows(s.clients[i], tab)
    ensures |RefreshedAll(s, tabs).clients| == |s.clients| && RefreshedAll(s, tabs).clients[i] == s.clients[i]
  {
    if tabs != [] {
      var n := |tabs| - 1;
      OthersAreNotTold(s, tabs[..n], i);
      assert tabs[n] in tabs;
    }
  }

  // ------------------------------------------------------------------ input

  /** Whoever follows the tab in projection may type, and never resizes; in raw mode both are the owner's alone. */
  lemma AcceptsExactly(s: Server, c: Client, tab: string)
    ensures AcceptsInput(s, c, tab) <==>
      (|| ModeOf(c.streams, tab) == Some(ProjectionMode)
       || (ModeOf(c.streams, tab) == Some(RawMode) && OwnerOf(s, tab) == Some(c.id)))
    ensures AcceptsResize(s, c, tab) <==> ModeOf(c.streams, tab) == Some(RawMode) && AcceptsInput(s, c, tab)
  {
    match ModeOf(c.streams, tab)
    case None =>
    case Some(RawMode) =>
    case Some(ProjectionMode) =>
  }

  predicate FirstFor(streams: seq<Stream>, tab: string, mode: Mode, i: nat) {
    i < |streams| && streams[i] == Stream(tab, mode) && forall j :: 0 <= j < i ==> streams[j].tab != tab
  }

  /** The mode is that of the first entry for the tab. */
  lemma {:induction false} ModeIs(streams: seq<Stream>, tab: string, mode: Mode)
    ensures ModeOf(streams, tab) == Some(mode) <==> exists i: nat :: FirstFor(streams, tab, mode, i)
  {
    if streams != [] {
      var rest := streams[1..];
      ModeIs(rest, tab, mode);
      if streams[0].tab == tab {
        assert FirstFor(streams, tab, streams[0].mode, 0);
      } else {
        if i: nat :| FirstFor(rest, tab, mode, i) { LaterFirst(streams, tab, mode, i); }
        if i: nat :| FirstFor(streams, tab, mode, i) { LaterFirst(streams, tab, mode, i - 1); }
      }
    }
  }

  lemma LaterFirst(streams: seq<Stream>, tab: string, mode: Mode, i: nat)
    requires streams != [] && streams[0].tab != tab
    ensures FirstFor(streams, tab, mode, i + 1) <==> FirstFor(streams[1..], tab, mode, i)
  {
    var rest := streams[1..];
    assert forall j :: 0 <= j < |rest| ==> rest[j] == streams[j + 1];
    if FirstFor(rest, tab, mode, i) {
      forall j | 0 <= j < i + 1 ensures streams[j].tab != tab { if j > 0 { assert rest[j - 1] == streams[j]; } }
    }
  }
}
