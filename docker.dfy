/** docker.go: the registry of monitored containers and its reconciliation
    against the runtime's listing of running containers, and the reading of a
    per-container block-I/O accounting file into lines.

    The registry is the global map doxContainers, here the fields of a Tracker
    object. Starting a stats subscription, starting a stat pusher and asking for
    a series drop are goroutine launches in the source; the model records each
    as an Event appended to a log, so that "exactly one subscription per new
    container" and "exactly one drop per departed container" are statements
    about that log. */
module Docker {
  import opened Text

  /** docker.APIContainers: one entry of the runtime's running-container listing. */
  datatype APIContainer = APIContainer(ID: string, Names: seq<string>)

  /** DoxContainer: a monitored container and the channel its stats arrive on.
      A channel is identified by a number the registry hands out only once. */
  datatype DoxContainer = DoxContainer(container: APIContainer, statChan: nat)

  /** A goroutine the registry starts. */
  datatype Event =
    | Subscribe(id: string, statChan: nat)    // go dockerClient.Stats(...)
    | StartPusher(id: string, statChan: nat)  // go runInfluxStatPusher(...)
    | DropSeries(name: string)                // go dropContainerSeries(...)

  /** The registry's whole state: the map, the next unused channel, the started goroutines. */
  datatype Registry = Registry(entries: map<string, DoxContainer>, nextChan: nat, events: seq<Event>)

  function Ids(containers: seq<APIContainer>): set<string>
  {
    set c <- containers :: c.ID
  }

  /** Every entry is filed under its own container's id, and no two entries
      share a channel, all channels having been handed out already. */
  ghost predicate WellFormed(r: Registry)
  {
    && (forall id | id in r.entries :: r.entries[id].container.ID == id && r.entries[id].statChan < r.nextChan)
    && (forall a, b | a in r.entries && b in r.entries && a != b :: r.entries[a].statChan != r.entries[b].statChan)
  }

  /** The name under which a container's series are stored: its first name without '/'. */
  function DisplayName(c: APIContainer): string
    requires |c.Names| > 0
  {
    StripChars(c.Names[0], "/")
  }

  // ---------------------------------------------------------------------------
  // pullDoxContainers

  /** The listing pullDoxContainers walks: in debug mode only its first container. */
  function Considered(containers: seq<APIContainer>, debug: bool): seq<APIContainer>
    requires debug ==> |containers| > 0
  {
    if debug then [containers[0]] else containers
  }

  /** One step of pullDoxContainers: a container not yet registered gets an entry
      holding it and a fresh channel, one subscription and one pusher. */
  function PullOne(r: Registry, c: APIContainer): Registry
  {
    if c.ID in r.entries then r
    else Registry(r.entries[c.ID := DoxContainer(c, r.nextChan)], r.nextChan + 1,
                  r.events + [Subscribe(c.ID, r.nextChan), StartPusher(c.ID, r.nextChan)])
  }

  /** pullDoxContainers over a listing, one container after the other. */
  function Pull(r: Registry, containers: seq<APIContainer>): Registry
    decreases |containers|
  {
    if containers == [] then r
    else PullOne(Pull(r, containers[..|containers| - 1]), containers[|containers| - 1])
  }

  lemma IdsSnoc(containers: seq<APIContainer>)
    requires containers != []
    ensures Ids(containers) == Ids(containers[..|containers| - 1]) + {containers[|containers| - 1].ID}
  {
    assert containers == containers[..|containers| - 1] + [containers[|containers| - 1]];
  }

  /** Pulling registers exactly the listed ids on top of the registered ones,
      leaves every registered entry as it was, never reuses a channel and only
      appends to the log. */
  lemma {:induction false} PullFrame(r: Registry, containers: seq<APIContainer>)
    ensures Pull(r, containers).entries.Keys == r.entries.Keys + Ids(containers)
    ensures forall id | id in r.entries :: Pull(r, containers).entries[id] == r.entries[id]
    ensures r.nextChan <= Pull(r, containers).nextChan
    ensures r.events <= Pull(r, containers).events
    decreases |containers|
  {
    if containers != [] {
      var init := containers[..|containers| - 1];
      PullFrame(r, init);
      IdsSnoc(containers);
    }
  }

  /** A newly registered id holds a listed container with that id, on a channel
      no earlier entry ever had: a returning id starts afresh. */
  lemma {:induction false} PullNewEntries(r: Registry, containers: seq<APIContainer>)
    ensures forall id | id in Pull(r, containers).entries && id !in r.entries ::
      && Pull(r, containers).entries[id].container in containers
      && Pull(r, containers).entries[id].container.ID == id
      && Pull(r, containers).entries[id].statChan >= r.nextChan
    decreases |containers|
  {
    if containers != [] {
      var init := containers[..|containers| - 1];
      PullNewEntries(r, init);
      PullFrame(r, init);
      assert forall c <- init :: c in containers;
    }
  }

  /** Pulling keeps the registry well formed. */
  lemma {:induction false} PullWellFormed(r: Registry, containers: seq<APIContainer>)
    requires WellFormed(r)
    ensures WellFormed(Pull(r, containers))
    decreases |containers|
  {
    if containers != [] {
      PullWellFormed(r, containers[..|containers| - 1]);
    }
  }

  /** Pulling a listing whose ids are all registered changes nothing. */
  lemma {:induction false} PullRegistered(r: Registry, containers: seq<APIContainer>)
    requires Ids(containers) <= r.entries.Keys
    ensures Pull(r, containers) == r
    decreases |containers|
  {
    if containers != [] {
      IdsSnoc(containers);
      PullRegistered(r, containers[..|containers| - 1]);
    }
  }

  /** Pulling the same listing twice: the second pull changes nothing. */
  lemma PullIdempotent(r: Registry, containers: seq<APIContainer>)
    ensures Pull(Pull(r, containers), containers) == Pull(r, containers)
  {
    PullFrame(r, containers);
    PullRegistered(Pull(r, containers), containers);
  }

  function Subscriptions(events: seq<Event>, id: string): nat
  {
    if events == [] then 0
    else Subscriptions(events[..|events| - 1], id) + (if events[|events| - 1].Subscribe? && events[|events| - 1].id == id then 1 else 0)
  }

  function Pushers(events: seq<Event>, id: string): nat
  {
    if events == [] then 0
    else Pushers(events[..|events| - 1], id) + (if events[|events| - 1].StartPusher? && events[|events| - 1].id == id then 1 else 0)
  }

  function DropCount(events: seq<Event>): nat
  {
    if events == [] then 0
    else DropCount(events[..|events| - 1]) + (if events[|events| - 1].DropSeries? then 1 else 0)
  }

  lemma PullOneCounts(r: Registry, c: APIContainer, id: string)
    ensures Subscriptions(PullOne(r, c).events, id)
      == Subscriptions(r.events, id) + (if c.ID == id && id !in r.entries then 1 else 0)
    ensures Pushers(PullOne(r, c).events, id)
      == Pushers(r.events, id) + (if c.ID == id && id !in r.entries then 1 else 0)
    ensures DropCount(PullOne(r, c).events) == DropCount(r.events)
  {
    if c.ID !in r.entries {
      var e := PullOne(r, c).events;
      assert e[..|e| - 1] == r.events + [Subscribe(c.ID, r.nextChan)];
      assert e[..|e| - 1][..|e| - 2] == r.events;
    }
  }

  /** Each id that a pull newly registers gets exactly one subscription and one
      pusher; a registered or unlisted id gets none, and no series is dropped. */
  lemma {:induction false} PullStartsOncePerNewId(r: Registry, containers: seq<APIContainer>, id: string)
    ensures Subscriptions(Pull(r, containers).events, id)
      == Subscriptions(r.events, id) + (if id in Ids(containers) && id !in r.entries then 1 else 0)
    ensures Pushers(Pull(r, containers).events, id)
      == Pushers(r.events, id) + (if id in Ids(containers) && id !in r.entries then 1 else 0)
    ensures DropCount(Pull(r, containers).events) == DropCount(r.events)
    decreases |containers|
  {
    if containers != [] {
      var init := containers[..|containers| - 1];
      PullStartsOncePerNewId(r, init, id);
      PullFrame(r, init);
      PullOneCounts(Pull(r, init), containers[|containers| - 1], id);
      IdsSnoc(containers);
    }
  }

  // ---------------------------------------------------------------------------
  // cleanupDoxContainer

  /** The entries cleanupDoxContainer keeps: those whose id is listed. */
  function Retain(entries: map<string, DoxContainer>, containers: seq<APIContainer>): map<string, DoxContainer>
  {
    map id | id in entries && id in Ids(containers) :: entries[id]
  }

  /** Every registered id missing from the listing has a name: cleanup reads its Names[0]. */
  predicate DepartedNamed(entries: map<string, DoxContainer>, containers: seq<APIContainer>)
  {
    forall id | id in entries && id !in Ids(containers) :: |entries[id].container.Names| > 0
  }

  /** The drop requests for the ids in order, each for the display name its entry had. */
  function Drops(order: seq<string>, entries: map<string, DoxContainer>): seq<Event>
    requires forall i | 0 <= i < |order| :: order[i] in entries && |entries[order[i]].container.Names| > 0
  {
    seq(|order|, i requires 0 <= i < |order| => DropSeries(DisplayName(entries[order[i]].container)))
  }

  lemma DropsSnoc(order: seq<string>, entries: map<string, DoxContainer>, id: string)
    requires forall i | 0 <= i < |order| :: order[i] in entries && |entries[order[i]].container.Names| > 0
    requires id in entries && |entries[id].container.Names| > 0
    ensures Drops(order + [id], entries) == Drops(order, entries) + [DropSeries(DisplayName(entries[id].container))]
  {
  }

  /** The entries left while cleanup has still to visit the ids in pending. */
  function Remaining(start: map<string, DoxContainer>, pending: set<string>, containers: seq<APIContainer>): map<string, DoxContainer>
  {
    map id | id in start && (id in pending || id in Ids(containers)) :: start[id]
  }

  /** order lists, each once, the visited ids (those of start not in pending) that are not listed. */
  ghost predicate VisitedOrder(order: seq<string>, start: map<string, DoxContainer>, pending: set<string>, containers: seq<APIContainer>)
  {
    && (forall i | 0 <= i < |order| :: order[i] in start && order[i] !in pending && order[i] !in Ids(containers))
    && (forall i, j | 0 <= i < j < |order| :: order[i] != order[j])
    && (set id <- order) == (start.Keys - pending) - Ids(containers)
  }

  lemma VisitedStep(order: seq<string>, start: map<string, DoxContainer>, pending: set<string>, containers: seq<APIContainer>, id: string)
    requires VisitedOrder(order, start, pending, containers)
    requires id in pending && pending <= start.Keys
    ensures id in Ids(containers) ==> VisitedOrder(order, start, pending - {id}, containers)
    ensures id !in Ids(containers) ==> VisitedOrder(order + [id], start, pending - {id}, containers)
  {
    assert (set x <- order + [id]) == (set x <- order) + {id};
  }

  lemma RemainingStep(start: map<string, DoxContainer>, pending: set<string>, containers: seq<APIContainer>, id: string)
    requires id in pending
    ensures id in Ids(containers) ==> Remaining(start, pending - {id}, containers) == Remaining(start, pending, containers)
    ensures id !in Ids(containers) ==> Remaining(start, pending - {id}, containers) == Remaining(start, pending, containers) - {id}
  {
  }

  /** One visit of cleanupDoxContainer's loop, as the facts its invariants need. */
  lemma CleanupStep(order: seq<string>, start: map<string, DoxContainer>, pending: set<string>, containers: seq<APIContainer>,
                    id: string, base: seq<Event>, events: seq<Event>)
    requires VisitedOrder(order, start, pending, containers)
    requires id in pending && pending <= start.Keys && DepartedNamed(start, containers)
    requires events == base + Drops(order, start)
    ensures id in Remaining(start, pending, containers) && Remaining(start, pending, containers)[id] == start[id]
    ensures id in Ids(containers) ==>
      && VisitedOrder(order, start, pending - {id}, containers)
      && Remaining(start, pending - {id}, containers) == Remaining(start, pending, containers)
    ensures id !in Ids(containers) ==>
      && VisitedOrder(order + [id], start, pending - {id}, containers)
      && Remaining(start, pending - {id}, containers) == Remaining(start, pending, containers) - {id}
      && events + [DropSeries(DisplayName(start[id].container))] == base + Drops(order + [id], start)
  {
    RemainingStep(start, pending, containers, id);
    VisitedStep(order, start, pending, containers, id);
    if id !in Ids(containers) {
      DropsSnoc(order, start, id);
    }
  }

  /** order lists every registered id missing from the listing, each once. */
  ghost predicate RemovalOrder(order: seq<string>, entries: map<string, DoxContainer>, containers: seq<APIContainer>)
  {
    && (forall i, j | 0 <= i < j < |order| :: order[i] != order[j])
    && (set id <- order) == entries.Keys - Ids(containers)
  }

  /** After cleanup every remaining id is listed, and listed entries are kept as they were. */
  lemma RetainListed(entries: map<string, DoxContainer>, containers: seq<APIContainer>)
    ensures Retain(entries, containers).Keys == entries.Keys * Ids(containers)
    ensures forall id | id in entries && id in Ids(containers) :: Retain(entries, containers)[id] == entries[id]
  {
  }

  /** One reconciliation tick with debug off leaves exactly the listed ids registered. */
  lemma SyncMatchesListing(r: Registry, containers: seq<APIContainer>)
    ensures Retain(Pull(r, containers).entries, containers).Keys == Ids(containers)
  {
    PullFrame(r, containers);
  }

  /** In debug mode a tick registers nothing beyond the first listed container. */
  lemma DebugSyncTracksFirstOnly(r: Registry, containers: seq<APIContainer>)
    requires |containers| > 0
    ensures Retain(Pull(r, Considered(containers, true)).entries, containers).Keys
      <= r.entries.Keys + {containers[0].ID}
  {
    var first := Considered(containers, true);
    PullFrame(r, first);
    assert Ids(first) == {containers[0].ID};
  }

  /** A second tick with the same listing, after a first one with debug off,
      starts nothing and drops nothing: the pull leaves the registry as it is
      and the cleanup finds no id to remove. */
  lemma SecondSyncChangesNothing(r: Registry, containers: seq<APIContainer>, events: seq<Event>)
    ensures
      var pulled := Pull(r, containers);
      var after := Registry(Retain(pulled.entries, containers), pulled.nextChan, events);
      && Pull(after, containers) == after
      && Retain(after.entries, containers) == after.entries
      && after.entries.Keys - Ids(containers) == {}
  {
    var pulled := Pull(r, containers);
    var after := Registry(Retain(pulled.entries, containers), pulled.nextChan, events);
    SyncMatchesListing(r, containers);
    PullRegistered(after, containers);
  }

  // ---------------------------------------------------------------------------
  // The Tracker: the global registry, changed in place

  class Tracker {
    var doxContainers: map<string, DoxContainer>
    var nextChan: nat
    var events: seq<Event>

    function State(): Registry
      reads this
    {
      Registry(doxContainers, nextChan, events)
    }

    ghost predicate Valid()
      reads this
    {
      WellFormed(State())
    }

    constructor ()
      ensures Valid() && State() == Registry(map[], 0, [])
    {
      doxContainers := map[];
      nextChan := 0;
      events := [];
    }

    /** isContainerInAPIContainers: whether some listed container has this id. */
    static method IsContainerInAPIContainers(slice: seq<APIContainer>, id: string) returns (found: bool)
      ensures found <==> id in Ids(slice)
    {
      for i := 0 to |slice|
        invariant forall j | 0 <= j < i :: slice[j].ID != id
      {
        if slice[i].ID == id {
          return true;
        }
      }
      return false;
    }

    method RemoveDoxContainer(id: string)
      requires Valid()
      modifies this
      ensures Valid()
      ensures doxContainers == old(doxContainers) - {id}
      ensures nextChan == old(nextChan) && events == old(events)
    {
      doxContainers := doxContainers - {id};
    }

    /** pullDoxContainers: register every considered container not yet registered. */
    method PullDoxContainers(containers: seq<APIContainer>, debug: bool)
      requires Valid()
      requires debug ==> |containers| > 0
      modifies this
      ensures Valid()
      ensures State() == Pull(old(State()), Considered(containers, debug))
    {
      var considered := containers;
      if debug {
        considered := [containers[0]];
      }
      for i := 0 to |considered|
        invariant Valid()
        invariant State() == Pull(old(State()), considered[..i])
      {
        var container := considered[i];
        assert considered[..i + 1][..i] == considered[..i];
        if container.ID !in doxContainers {
          var statChan := nextChan;
          doxContainers := doxContainers[container.ID := DoxContainer(container, statChan)];
          nextChan := nextChan + 1;
          events := events + [Subscribe(container.ID, statChan), StartPusher(container.ID, statChan)];
        }
      }
      assert considered[..|considered|] == considered;
    }

    /** cleanupDoxContainer: deregister every id missing from the listing, first
        asking for its series to be dropped under the display name its entry has.
        Go ranges over the map in an unspecified order; order is the order taken. */
    method CleanupDoxContainer(containers: seq<APIContainer>) returns (ghost order: seq<string>)
      requires Valid()
      requires DepartedNamed(doxContainers, containers)
      modifies this
      ensures Valid()
      ensures doxContainers == Retain(old(doxContainers), containers)
      ensures nextChan == old(nextChan)
      ensures forall i | 0 <= i < |order| :: order[i] in old(doxContainers) && order[i] !in Ids(containers)
      ensures RemovalOrder(order, old(doxContainers), containers)
      ensures events == old(events) + Drops(order, old(doxContainers))
    {
      ghost var start := doxContainers;
      var pending := doxContainers.Keys;
      order := [];
      while pending != {}
        invariant Valid()
        invariant pending <= start.Keys
        invariant doxContainers == Remaining(start, pending, containers)
        invariant nextChan == old(nextChan)
        invariant VisitedOrder(order, start, pending, containers)
        invariant events == old(events) + Drops(order, start)
        decreases pending
      {
        var id :| id in pending;
        var listed := IsContainerInAPIContainers(containers, id);
        CleanupStep(order, start, pending, containers, id, old(events), events);
        if !listed {
          events := events + [DropSeries(DisplayName(doxContainers[id].container))];
          RemoveDoxContainer(id);
          order := order + [id];
        }
        pending := pending - {id};
      }
      assert doxContainers == Retain(start, containers);
    }

    /** One iteration of updateDoxContainers, the listing given: pull, then clean up. */
    method UpdateDoxContainersOnce(containers: seq<APIContainer>, debug: bool) returns (ghost order: seq<string>)
      requires Valid()
      requires debug ==> |containers| > 0
      requires DepartedNamed(doxContainers, containers)
      modifies this
      ensures Valid()
      ensures
        var pulled := Pull(old(State()), Considered(containers, debug));
        && doxContainers == Retain(pulled.entries, containers)
        && nextChan == pulled.nextChan
        && (forall i | 0 <= i < |order| :: order[i] in pulled.entries && order[i] !in Ids(containers))
        && DepartedNamed(pulled.entries, containers)
        && RemovalOrder(order, pulled.entries, containers)
        && events == pulled.events + Drops(order, pulled.entries)
    {
      ghost var before := State();
      PullDoxContainers(containers, debug);
      PullFrame(before, Considered(containers, debug));
      PullNewEntries(before, Considered(containers, debug));
      assert forall c <- Considered(containers, debug) :: c in containers;
      order := CleanupDoxContainer(containers);
    }
  }

  // ---------------------------------------------------------------------------
  // dockerIOStatFileToSlice

  /** The path of a per-container cgroup file: <base>/docker-<id>.scope/<file>. */
  function ScopePath(base: string, id: string, file: string): string
  {
    base + "/docker-" + id + ".scope/" + file
  }

  /** Different containers' files under the same base and file name have different paths. */
  lemma ScopePathInjective(base: string, id1: string, id2: string, file: string)
    requires ScopePath(base, id1, file) == ScopePath(base, id2, file)
    ensures id1 == id2
  {
    var p1, p2 := ScopePath(base, id1, file), ScopePath(base, id2, file);
    var pre := |base + "/docker-"|;
    var post := |".scope/" + file|;
    assert |id1| == |p1| - pre - post;
    assert id1 == p1[pre..|p1| - post];
    assert id2 == p2[pre..|p2| - post];
  }

  /** The host's files, by path. A path that is absent is an unreadable file, which
      ioutil.ReadFile returns as empty contents beside its error. */
  function ReadFile(files: map<string, string>, path: string): string
  {
    if path in files then files[path] else []
  }

  /** The pieces of strings.Split(contents, "\n") without the last one. */
  function IOStatLines(contents: string): (lines: seq<string>)
    ensures forall l <- lines :: '\n' !in l
  {
    var pieces := Split(contents, '\n');
    pieces[..|pieces| - 1]
  }

  /** dockerIOStatFileToSlice: the lines of <IOStatPath>/docker-<id>.scope/<fileName>;
      an unreadable file yields no lines. */
  function DockerIOStatFileToSlice(ioStatPath: string, id: string, fileName: string, files: map<string, string>): (lines: seq<string>)
    ensures ScopePath(ioStatPath, id, fileName) !in files ==> lines == []
    ensures forall l <- lines :: '\n' !in l
  {
    IOStatLines(ReadFile(files, ScopePath(ioStatPath, id, fileName)))
  }

  /** A file of newline-terminated lines reads back as exactly those lines. */
  lemma IOStatLinesOfTerminated(lines: seq<string>)
    requires forall l <- lines :: '\n' !in l
    ensures IOStatLines(Terminated(lines)) == lines
  {
    SplitTerminated(lines);
    assert (lines + [[]])[..|lines|] == lines;
  }

  /** The lines plus the dropped last piece, joined by newlines, are the file. */
  lemma IOStatLinesCover(contents: string)
    ensures Join(IOStatLines(contents) + [Split(contents, '\n')[|Split(contents, '\n')| - 1]], '\n') == contents
  {
    var pieces := Split(contents, '\n');
    assert IOStatLines(contents) + [pieces[|pieces| - 1]] == pieces;
    JoinSplit(contents, '\n');
  }
}
