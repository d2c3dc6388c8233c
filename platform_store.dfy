/** The game-platform store (cli/src/state/platform-store.ts): the signed-in
    user, the machines and the active one, the hint chat, PvP matches and
    the sidebar tab. Each setter is a method on `PlatformStore`, specified
    by a transition function on `PlatformState`; the derived fields
    (`isAuthenticated`, `machineStatus`, `unreadHintCount`) are what the
    lemmas are about. Records are values, so the active machine and the
    entry of `machines` with the same id are two separate copies, as they
    are two separate drafts in the source. */
module PlatformStore {
  import opened Common

  datatype Platform = Htb | Thm | Sonder
  datatype Difficulty = Easy | Medium | Hard | Insane
  datatype Os = Linux | Windows
  datatype MachineStatus = Offline | Spawning | Running | Stopping

  /** Dates are milliseconds since the epoch. */
  datatype Machine = Machine(
    id: string, name: string, platform: Platform, difficulty: Difficulty, os: Os,
    ip: Option<string>, status: MachineStatus, userOwned: bool, rootOwned: bool,
    releaseDate: nat, tags: seq<string>)

  /** `Partial<Machine>`: a field is `Some` when the updates object has it;
      `ip := Some(None)` sets the optional field to undefined. */
  datatype MachinePatch = MachinePatch(
    id: Option<string>, name: Option<string>, platform: Option<Platform>,
    difficulty: Option<Difficulty>, os: Option<Os>, ip: Option<Option<string>>,
    status: Option<MachineStatus>, userOwned: Option<bool>, rootOwned: Option<bool>,
    releaseDate: Option<nat>, tags: Option<seq<string>>)

  datatype MessageType = Hint | Chat | System

  datatype ChatMessage = ChatMessage(
    id: string, oderId: string, authorName: string, content: string,
    messageType: MessageType, spoilerLevel: nat, timestamp: nat, machineId: string)

  datatype MatchStatus = Waiting | InProgress | Completed

  datatype Participant = Participant(
    oderId: string, name: string, userFlagAt: Option<nat>, rootFlagAt: Option<nat>, rank: Option<int>)

  datatype PvPMatch = PvPMatch(
    id: string, machineId: string, machineName: string, status: MatchStatus,
    participants: seq<Participant>, createdAt: nat, startedAt: Option<nat>, endedAt: Option<nat>)

  /** `Partial<PvPMatch>`, as `MachinePatch`. */
  datatype MatchPatch = MatchPatch(
    id: Option<string>, machineId: Option<string>, machineName: Option<string>,
    status: Option<MatchStatus>, participants: Option<seq<Participant>>, createdAt: Option<nat>,
    startedAt: Option<Option<nat>>, endedAt: Option<Option<nat>>)

  datatype User = User(id: string, name: string, email: string, avatar: Option<string>)

  datatype SidebarTab = ChatTab | VmTab | PvpTab

  /** The whole store state. */
  datatype PlatformState = PlatformState(
    isAuthenticated: bool, user: Option<User>,
    machines: seq<Machine>, activeMachine: Option<Machine>, machineStatus: MachineStatus,
    chatMessages: seq<ChatMessage>, unreadHintCount: nat, revealedSpoilerLevels: set<string>,
    activeMatch: Option<PvPMatch>, availableMatches: seq<PvPMatch>,
    sidebarTab: SidebarTab, isLoadingMachines: bool, isSpawning: bool)

  /** The state a new store starts in and `reset` returns to. */
  const INITIAL := PlatformState(false, None, [], None, Offline, [], 0, {}, None, [], VmTab, false, false)

  /** `Object.assign(machine, updates)`: the fields present in the patch are
      overwritten, the others kept. */
  function ApplyMachinePatch(m: Machine, p: MachinePatch): (r: Machine)
    ensures p.id.Some? ==> r.id == p.id.value
    ensures p.id.None? ==> r.id == m.id
    ensures p.status.Some? ==> r.status == p.status.value
    ensures p.status.None? ==> r.status == m.status
    ensures p == MachinePatch(None, None, None, None, None, None, None, None, None, None, None) ==> r == m
  {
    Machine(Get(p.id, m.id), Get(p.name, m.name), Get(p.platform, m.platform),
      Get(p.difficulty, m.difficulty), Get(p.os, m.os), Get(p.ip, m.ip),
      Get(p.status, m.status), Get(p.userOwned, m.userOwned), Get(p.rootOwned, m.rootOwned),
      Get(p.releaseDate, m.releaseDate), Get(p.tags, m.tags))
  }

  /** `Object.assign(match, updates)`. */
  function ApplyMatchPatch(m: PvPMatch, p: MatchPatch): (r: PvPMatch)
    ensures p.id.Some? ==> r.id == p.id.value
    ensures p.id.None? ==> r.id == m.id
    ensures p == MatchPatch(None, None, None, None, None, None, None, None) ==> r == m
  {
    PvPMatch(Get(p.id, m.id), Get(p.machineId, m.machineId), Get(p.machineName, m.machineName),
      Get(p.status, m.status), Get(p.participants, m.participants), Get(p.createdAt, m.createdAt),
      Get(p.startedAt, m.startedAt), Get(p.endedAt, m.endedAt))
  }

  /** Assigning the same updates twice is assigning them once. */
  lemma MachinePatchIdempotent(m: Machine, p: MachinePatch)
    ensures ApplyMachinePatch(ApplyMachinePatch(m, p), p) == ApplyMachinePatch(m, p)
  {
  }

  lemma MatchPatchIdempotent(m: PvPMatch, p: MatchPatch)
    ensures ApplyMatchPatch(ApplyMatchPatch(m, p), p) == ApplyMatchPatch(m, p)
  {
  }

  function MachineId(m: Machine): string { m.id }

  function MatchId(m: PvPMatch): string { m.id }

  /** `xs.find(x => x.id === id)`, as the index of the element it finds. */
  function FindFirst<T>(xs: seq<T>, idOf: T -> string, id: string): (r: Option<nat>)
    ensures r.Some? ==> r.value < |xs| && idOf(xs[r.value]) == id
    decreases |xs|
  {
    if xs == [] then None
    else if idOf(xs[0]) == id then Some(0)
    else match FindFirst(xs[1..], idOf, id)
      case None => None
      case Some(k) => Some(k + 1)
  }

  /** `FindFirst` finds the first element with the id, and none when no
      element has it. */
  lemma {:induction false} FindFirstIsFirst<T>(xs: seq<T>, idOf: T -> string, id: string)
    ensures FindFirst(xs, idOf, id).Some? ==> forall j :: 0 <= j < FindFirst(xs, idOf, id).value ==> idOf(xs[j]) != id
    ensures FindFirst(xs, idOf, id).None? <==> forall j :: 0 <= j < |xs| ==> idOf(xs[j]) != id
    decreases |xs|
  {
    if xs != [] && idOf(xs[0]) != id {
      FindFirstIsFirst(xs[1..], idOf, id);
      assert forall j :: 1 <= j < |xs| ==> xs[j] == xs[1..][j - 1];
    }
  }

  /** An element with the id and none before it is the one found. */
  lemma {:induction false} FindFirstAt<T>(xs: seq<T>, idOf: T -> string, id: string, k: nat)
    requires k < |xs| && idOf(xs[k]) == id
    requires forall j :: 0 <= j < k ==> idOf(xs[j]) != id
    ensures FindFirst(xs, idOf, id) == Some(k)
    decreases k
  {
    if k > 0 {
      assert forall j :: 0 <= j < k - 1 ==> xs[1..][j] == xs[j + 1];
      FindFirstAt(xs[1..], idOf, id, k - 1);
    }
  }

  /** `updateMachine` on the list: the first machine with the id is patched,
      every other entry is as it was, and nothing changes when no machine
      has the id. */
  function PatchMachines(ms: seq<Machine>, id: string, p: MachinePatch): (r: seq<Machine>)
    ensures |r| == |ms|
    ensures FindFirst(ms, MachineId, id).None? ==> r == ms
    ensures FindFirst(ms, MachineId, id).Some? ==>
      var k := FindFirst(ms, MachineId, id).value;
      r[k] == ApplyMachinePatch(ms[k], p) && forall j :: 0 <= j < |ms| && j != k ==> r[j] == ms[j]
  {
    match FindFirst(ms, MachineId, id)
    case None => ms
    case Some(k) => ms[k := ApplyMachinePatch(ms[k], p)]
  }

  /** `updateMatch` on the list, as `PatchMachines`. */
  function PatchMatches(ms: seq<PvPMatch>, id: string, p: MatchPatch): (r: seq<PvPMatch>)
    ensures |r| == |ms|
    ensures FindFirst(ms, MatchId, id).None? ==> r == ms
    ensures FindFirst(ms, MatchId, id).Some? ==>
      var k := FindFirst(ms, MatchId, id).value;
      r[k] == ApplyMatchPatch(ms[k], p) && forall j :: 0 <= j < |ms| && j != k ==> r[j] == ms[j]
  {
    match FindFirst(ms, MatchId, id)
    case None => ms
    case Some(k) => ms[k := ApplyMatchPatch(ms[k], p)]
  }

  /** Repeating `updateMachine` with updates that keep the id changes
      nothing more: the same machine is found again and patched again with
      the same fields. */
  lemma PatchMachinesTwice(ms: seq<Machine>, id: string, p: MachinePatch)
    requires p.id.None? || p.id == Some(id)
    ensures PatchMachines(PatchMachines(ms, id, p), id, p) == PatchMachines(ms, id, p)
  {
    var once := PatchMachines(ms, id, p);
    match FindFirst(ms, MachineId, id)
    case None =>
    case Some(k) =>
      FindFirstIsFirst(ms, MachineId, id);
      FindFirstAt(once, MachineId, id, k);
      MachinePatchIdempotent(ms[k], p);
  }

  /** The same for `updateMatch`. */
  lemma PatchMatchesTwice(ms: seq<PvPMatch>, id: string, p: MatchPatch)
    requires p.id.None? || p.id == Some(id)
    ensures PatchMatches(PatchMatches(ms, id, p), id, p) == PatchMatches(ms, id, p)
  {
    var once := PatchMatches(ms, id, p);
    match FindFirst(ms, MatchId, id)
    case None =>
    case Some(k) =>
      FindFirstIsFirst(ms, MatchId, id);
      FindFirstAt(once, MatchId, id, k);
      MatchPatchIdempotent(ms[k], p);
  }

  /** The machine status shown is the active machine's own status. */
  predicate StatusSynced(s: PlatformState)
  {
    s.activeMachine.Some? ==> s.machineStatus == s.activeMachine.value.status
  }

  // ---- The transitions ----

  function AfterSetUser(s: PlatformState, user: Option<User>): (r: PlatformState)
    ensures r.user == user
    ensures r.isAuthenticated <==> user.Some?
    ensures r.(user := s.user, isAuthenticated := s.isAuthenticated) == s
  {
    s.(user := user, isAuthenticated := user != None)
  }

  /** Selecting a machine shows its status, or offline when none is
      selected, and starts the hint chat afresh. The hint counter is left
      as it was. */
  function AfterSetActiveMachine(s: PlatformState, machine: Option<Machine>): (r: PlatformState)
    ensures r.activeMachine == machine
    ensures r.machineStatus == if machine.Some? then machine.value.status else Offline
    ensures r.chatMessages == [] && r.revealedSpoilerLevels == {}
    ensures StatusSynced(r)
    ensures r.(activeMachine := s.activeMachine, machineStatus := s.machineStatus, chatMessages := s.chatMessages,
      revealedSpoilerLevels := s.revealedSpoilerLevels) == s
  {
    s.(activeMachine := machine, machineStatus := if machine.Some? then machine.value.status else Offline,
      chatMessages := [], revealedSpoilerLevels := {})
  }

  /** The status is set both as shown and on the active machine, if any;
      the entry in `machines` is not touched. */
  function AfterSetMachineStatus(s: PlatformState, status: MachineStatus): (r: PlatformState)
    ensures r.machineStatus == status
    ensures r.activeMachine.Some? <==> s.activeMachine.Some?
    ensures r.activeMachine.Some? ==> r.activeMachine.value == s.activeMachine.value.(status := status)
    ensures StatusSynced(r)
    ensures r.(machineStatus := s.machineStatus, activeMachine := s.activeMachine) == s
  {
    s.(machineStatus := status,
      activeMachine := if s.activeMachine.Some? then Some(s.activeMachine.value.(status := status)) else None)
  }

  /** The first machine with the id is patched, and so is the active
      machine when it has the id. `machineStatus` is not re-derived. */
  function AfterUpdateMachine(s: PlatformState, id: string, p: MachinePatch): (r: PlatformState)
    ensures r.machines == PatchMachines(s.machines, id, p)
    ensures r.activeMachine == if s.activeMachine.Some? && s.activeMachine.value.id == id
      then Some(ApplyMachinePatch(s.activeMachine.value, p)) else s.activeMachine
    ensures r.(machines := s.machines, activeMachine := s.activeMachine) == s
  {
    s.(machines := PatchMachines(s.machines, id, p),
      activeMachine := if s.activeMachine.Some? && s.activeMachine.value.id == id
        then Some(ApplyMachinePatch(s.activeMachine.value, p)) else s.activeMachine)
  }

  /** Every hint posted adds one unread hint; chat and system messages do not. */
  function AfterAddChatMessage(s: PlatformState, message: ChatMessage): (r: PlatformState)
    ensures r.chatMessages == s.chatMessages + [message]
    ensures r.unreadHintCount == s.unreadHintCount + (if message.messageType == Hint then 1 else 0)
    ensures r.(chatMessages := s.chatMessages, unreadHintCount := s.unreadHintCount) == s
  {
    s.(chatMessages := s.chatMessages + [message],
      unreadHintCount := if message.messageType == Hint then s.unreadHintCount + 1 else s.unreadHintCount)
  }

  function AfterRevealSpoiler(s: PlatformState, hintId: string): (r: PlatformState)
    ensures r.revealedSpoilerLevels == s.revealedSpoilerLevels + {hintId}
    ensures hintId in r.revealedSpoilerLevels
    ensures r.(revealedSpoilerLevels := s.revealedSpoilerLevels) == s
  {
    s.(revealedSpoilerLevels := s.revealedSpoilerLevels + {hintId})
  }

  function AfterUpdateMatch(s: PlatformState, id: string, p: MatchPatch): (r: PlatformState)
    ensures r.availableMatches == PatchMatches(s.availableMatches, id, p)
    ensures r.activeMatch == if s.activeMatch.Some? && s.activeMatch.value.id == id
      then Some(ApplyMatchPatch(s.activeMatch.value, p)) else s.activeMatch
    ensures r.(availableMatches := s.availableMatches, activeMatch := s.activeMatch) == s
  {
    s.(availableMatches := PatchMatches(s.availableMatches, id, p),
      activeMatch := if s.activeMatch.Some? && s.activeMatch.value.id == id
        then Some(ApplyMatchPatch(s.activeMatch.value, p)) else s.activeMatch)
  }

  /** Opening the chat tab marks every hint read; other tabs leave the
      counter alone. */
  function AfterSetSidebarTab(s: PlatformState, tab: SidebarTab): (r: PlatformState)
    ensures r.sidebarTab == tab
    ensures r.unreadHintCount == if tab == ChatTab then 0 else s.unreadHintCount
    ensures r.(sidebarTab := s.sidebarTab, unreadHintCount := s.unreadHintCount) == s
  {
    s.(sidebarTab := tab, unreadHintCount := if tab == ChatTab then 0 else s.unreadHintCount)
  }

  // ---- Properties over several calls ----

  /** Revealing a hint twice is revealing it once, and the order in which
      hints are revealed does not matter. */
  lemma RevealIdempotent(s: PlatformState, a: string, b: string)
    ensures AfterRevealSpoiler(AfterRevealSpoiler(s, a), a) == AfterRevealSpoiler(s, a)
    ensures AfterRevealSpoiler(AfterRevealSpoiler(s, a), b) == AfterRevealSpoiler(AfterRevealSpoiler(s, b), a)
  {
  }

  /** Only hints raise the unread count: over any run of posted messages it
      grows by the number of hints among them. */
  function CountHints(ms: seq<ChatMessage>): (r: nat)
    ensures r <= |ms|
  {
    if ms == [] then 0 else (if ms[0].messageType == Hint then 1 else 0) + CountHints(ms[1..])
  }

  function AddAll(s: PlatformState, ms: seq<ChatMessage>): PlatformState
    decreases |ms|
  {
    if ms == [] then s else AddAll(AfterAddChatMessage(s, ms[0]), ms[1..])
  }

  lemma {:induction false} AddAllCounts(s: PlatformState, ms: seq<ChatMessage>)
    ensures AddAll(s, ms).chatMessages == s.chatMessages + ms
    ensures AddAll(s, ms).unreadHintCount == s.unreadHintCount + CountHints(ms)
    ensures AddAll(s, ms).(chatMessages := s.chatMessages, unreadHintCount := s.unreadHintCount) == s
    decreases |ms|
  {
    if ms != [] {
      AddAllCounts(AfterAddChatMessage(s, ms[0]), ms[1..]);
      assert s.chatMessages + [ms[0]] + ms[1..] == s.chatMessages + ms;
    }
  }

  /** Every transition other than `updateMachine` keeps the shown status
      equal to the active machine's status. */
  lemma StatusSyncedKept(s: PlatformState, user: Option<User>, message: ChatMessage, hintId: string,
                         matchId: string, mp: MatchPatch, tab: SidebarTab, status: MachineStatus)
    requires StatusSynced(s)
    ensures StatusSynced(AfterSetUser(s, user))
    ensures StatusSynced(AfterAddChatMessage(s, message))
    ensures StatusSynced(AfterRevealSpoiler(s, hintId))
    ensures StatusSynced(AfterUpdateMatch(s, matchId, mp))
    ensures StatusSynced(AfterSetSidebarTab(s, tab))
    ensures StatusSynced(AfterSetMachineStatus(s, status))
  {
  }

  /** `updateMachine` keeps the status in step when the updates leave the
      status alone. */
  lemma UpdateMachineSynced(s: PlatformState, id: string, p: MachinePatch)
    requires StatusSynced(s) && p.status.None?
    ensures StatusSynced(AfterUpdateMachine(s, id, p))
  {
  }

  /** Updates that carry a new status for the active machine change the
      machine but not `machineStatus`, so the two disagree afterwards. */
  lemma UpdateMachineStatusLags()
    ensures var m := Machine("m1", "box", Htb, Easy, Linux, None, Running, false, false, 0, []);
      var p := MachinePatch(None, None, None, None, None, None, Some(Offline), None, None, None, None);
      var s := AfterSetActiveMachine(INITIAL.(machines := [m]), Some(m));
      StatusSynced(s) && !StatusSynced(AfterUpdateMachine(s, "m1", p))
  {
  }

  /** The store's state object. Every setter replaces the fields it names
      and keeps the others. */
  class PlatformStore {
    var isAuthenticated: bool
    var user: Option<User>
    var machines: seq<Machine>
    var activeMachine: Option<Machine>
    var machineStatus: MachineStatus
    var chatMessages: seq<ChatMessage>
    var unreadHintCount: nat
    var revealedSpoilerLevels: set<string>
    var activeMatch: Option<PvPMatch>
    var availableMatches: seq<PvPMatch>
    var sidebarTab: SidebarTab
    var isLoadingMachines: bool
    var isSpawning: bool

    function State(): PlatformState
      reads this
    {
      PlatformState(isAuthenticated, user, machines, activeMachine, machineStatus,
        chatMessages, unreadHintCount, revealedSpoilerLevels, activeMatch, availableMatches,
        sidebarTab, isLoadingMachines, isSpawning)
    }

    constructor ()
      ensures State() == INITIAL
    {
      isAuthenticated := false;
      user := None;
      machines := [];
      activeMachine := None;
      machineStatus := Offline;
      chatMessages := [];
      unreadHintCount := 0;
      revealedSpoilerLevels := {};
      activeMatch := None;
      availableMatches := [];
      sidebarTab := VmTab;
      isLoadingMachines := false;
      isSpawning := false;
    }

    method SetUser(u: Option<User>)
      modifies this
      ensures State() == AfterSetUser(old(State()), u)
    {
      user := u;
      isAuthenticated := u != None;
    }

    method SetAuthenticated(authenticated: bool)
      modifies this
      ensures State() == old(State()).(isAuthenticated := authenticated)
    {
      isAuthenticated := authenticated;
    }

    method SetMachines(ms: seq<Machine>)
      modifies this
      ensures State() == old(State()).(machines := ms)
    {
      machines := ms;
    }

    method SetActiveMachine(machine: Option<Machine>)
      modifies this
      ensures State() == AfterSetActiveMachine(old(State()), machine)
    {
      activeMachine := machine;
      machineStatus := if machine.Some? then machine.value.status else Offline;
      chatMessages := [];
      revealedSpoilerLevels := {};
    }

    method SetMachineStatus(status: MachineStatus)
      modifies this
      ensures State() == AfterSetMachineStatus(old(State()), status)
    {
      machineStatus := status;
      if activeMachine.Some? {
        activeMachine := Some(activeMachine.value.(status := status));
      }
    }

    method UpdateMachine(id: string, updates: MachinePatch)
      modifies this
      ensures State() == AfterUpdateMachine(old(State()), id, updates)
    {
      var found := Find(machines, MachineId, id);
      if found.Some? {
        machines := machines[found.value := ApplyMachinePatch(machines[found.value], updates)];
      }
      if activeMachine.Some? && activeMachine.value.id == id {
        activeMachine := Some(ApplyMachinePatch(activeMachine.value, updates));
      }
    }

    method SetIsLoadingMachines(loading: bool)
      modifies this
      ensures State() == old(State()).(isLoadingMachines := loading)
    {
      isLoadingMachines := loading;
    }

    method SetIsSpawning(spawning: bool)
      modifies this
      ensures State() == old(State()).(isSpawning := spawning)
    {
      isSpawning := spawning;
    }

    method SetChatMessages(messages: seq<ChatMessage>)
      modifies this
      ensures State() == old(State()).(chatMessages := messages)
    {
      chatMessages := messages;
    }

    method AddChatMessage(message: ChatMessage)
      modifies this
      ensures State() == AfterAddChatMessage(old(State()), message)
    {
      chatMessages := chatMessages + [message];
      if message.messageType == Hint {
        unreadHintCount := unreadHintCount + 1;
      }
    }

    method RevealSpoiler(hintId: string)
      modifies this
      ensures State() == AfterRevealSpoiler(old(State()), hintId)
    {
      revealedSpoilerLevels := revealedSpoilerLevels + {hintId};
    }

    method ClearUnreadHints()
      modifies this
      ensures State() == old(State()).(unreadHintCount := 0)
    {
      unreadHintCount := 0;
    }

    method SetActiveMatch(m: Option<PvPMatch>)
      modifies this
      ensures State() == old(State()).(activeMatch := m)
    {
      activeMatch := m;
    }

    method SetAvailableMatches(ms: seq<PvPMatch>)
      modifies this
      ensures State() == old(State()).(availableMatches := ms)
    {
      availableMatches := ms;
    }

    method UpdateMatch(id: string, updates: MatchPatch)
      modifies this
      ensures State() == AfterUpdateMatch(old(State()), id, updates)
    {
      var found := Find(availableMatches, MatchId, id);
      if found.Some? {
        availableMatches := availableMatches[found.value := ApplyMatchPatch(availableMatches[found.value], updates)];
      }
      if activeMatch.Some? && activeMatch.value.id == id {
        activeMatch := Some(ApplyMatchPatch(activeMatch.value, updates));
      }
    }

    method SetSidebarTab(tab: SidebarTab)
      modifies this
      ensures State() == AfterSetSidebarTab(old(State()), tab)
    {
      sidebarTab := tab;
      if tab == ChatTab {
        unreadHintCount := 0;
      }
    }

    /** Every field back to its initial value, the revealed set a new
        empty one. */
    method Reset()
      modifies this
      ensures State() == INITIAL
    {
      isAuthenticated := false;
      user := None;
      machines := [];
      activeMachine := None;
      machineStatus := Offline;
      chatMessages := [];
      unreadHintCount := 0;
      activeMatch := None;
      availableMatches := [];
      sidebarTab := VmTab;
      isLoadingMachines := false;
      isSpawning := false;
      revealedSpoilerLevels := {};
    }
  }

  /** `Array.prototype.find` by id: a scan for the first element with the id. */
  method Find<T>(xs: seq<T>, idOf: T -> string, id: string) returns (r: Option<nat>)
    ensures r == FindFirst(xs, idOf, id)
  {
    var i := 0;
    while i < |xs| && idOf(xs[i]) != id
      invariant 0 <= i <= |xs|
      invariant forall j :: 0 <= j < i ==> idOf(xs[j]) != id
    {
      i := i + 1;
    }
    if i < |xs| {
      FindFirstAt(xs, idOf, id, i);
      r := Some(i);
    } else {
      FindFirstIsFirst(xs, idOf, id);
      r := None;
    }
  }
}
