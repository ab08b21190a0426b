/** The bookkeeping of the execution manager (internal/server/execution_manager.go).
    Each method of the class is one section under its mutex. */
module Execution {
  import opened Wrappers

  type Key = string

  /** A channel that is only ever closed, or the absence of one. */
  datatype Signal = Absent | Open | Closed

  /** One invocation. starting says that its launcher has not been joined yet; a process is
      referred to by number. key is the conversation the invocation was started for. */
  datatype Entry = Entry(
    key: Key, process: Option<nat>, starting: bool, canceled: bool,
    startErr: bool, stopDone: Signal, stopErr: bool)

  /** A wrapperProcess: its result is fixed once done closes. */
  datatype Process = Process(owner: nat, done: bool, result: Option<int>)

  /** entries keeps every invocation ever made, as goroutines keep pointers to old ones. */
  datatype Manager = Manager(states: map<Key, nat>, entries: map<nat, Entry>, closed: bool)

  datatype StartReply = Refused | Joined(invocation: nat) | Launched(invocation: nat)

  datatype Phase = Stopped | Stopping | Starting | Running | Exited | Failed

  datatype Status = Status(phase: Phase, startAllowed: bool, invocation: Option<nat>, exitCode: Option<int>)

  datatype StopEntry = NothingToStop | Join(invocation: nat) | Lead(invocation: nat)

  const EMPTY := Manager(map[], map[], false)

  ghost predicate Linked(m: Manager, processes: map<nat, Process>) {
    && (forall key <- m.states :: m.states[key] in m.entries && m.entries[m.states[key]].key == key)
    && (forall i <- m.entries :: m.entries[i].process.Some? ==> m.entries[i].process.value in processes)
  }

  /** No process was ever returned, or the one that was has a confirmed result. */
  predicate Confirmed(process: Option<nat>, processes: map<nat, Process>)
    requires process.Some? ==> process.value in processes
  {
    process.Some? ==> processes[process.value].done && processes[process.value].result.Some?
  }

  predicate Unconfirmed(process: Option<nat>, processes: map<nat, Process>)
    requires process.Some? ==> process.value in processes
  {
    process.Some? && processes[process.value].done && processes[process.value].result.None?
  }

  /** What Start answers, read off the state of the current invocation. */
  ghost function StartAnswer(m: Manager, processes: map<nat, Process>, key: Key, canceled: bool, next: nat): StartReply
    requires Linked(m, processes)
  {
    if canceled || m.closed then Refused
    else if key !in m.states then Launched(next)
    else
      var e := m.entries[m.states[key]];
      if e.stopDone.Open? then Refused
      else if e.starting then Joined(m.states[key])
      else if Unconfirmed(e.process, processes) then Refused
      else if Confirmed(e.process, processes) then Launched(next)
      else Joined(m.states[key])
  }

  ghost function AfterLaunch(m: Manager, key: Key, next: nat): Manager {
    var canceled :=
      if key in m.states && m.states[key] in m.entries then
        m.entries[m.states[key] := m.entries[m.states[key]].(canceled := true)]
      else m.entries;
    m.(states := m.states[key := next],
       entries := canceled[next := Entry(key, None, true, false, false, Absent, false)])
  }

  ghost function AfterPublish(m: Manager, i: nat, process: Option<nat>, failed: bool): Manager
    requires i in m.entries
  {
    var e := m.entries[i];
    m.(entries := m.entries[i := e.(process := process, startErr := failed, starting := false,
                                    canceled := e.canceled || failed)])
  }

  ghost function StopAnswer(m: Manager, key: Key): StopEntry
    requires key in m.states ==> m.states[key] in m.entries
  {
    if key !in m.states then NothingToStop
    else if m.entries[m.states[key]].stopDone.Absent? then Lead(m.states[key])
    else Join(m.states[key])
  }

  ghost function AfterBeginStop(m: Manager, i: nat): Manager
    requires i in m.entries
  {
    m.(entries := m.entries[i := m.entries[i].(stopDone := Open, canceled := true)])
  }

  ghost function AfterFinishStop(m: Manager, i: nat, err: bool): Manager
    requires i in m.entries
  {
    m.(entries := m.entries[i := m.entries[i].(stopDone := Closed, stopErr := err)])
  }

  ghost function StatusOf(m: Manager, processes: map<nat, Process>, key: Key): Status
    requires Linked(m, processes)
  {
    if key !in m.states then Status(Stopped, !m.closed, None, None)
    else
      var i := m.states[key];
      var e := m.entries[i];
      var reply := Status(Stopped, !m.closed, Some(i), None);
      if e.stopDone.Open? then reply.(phase := Stopping, startAllowed := false)
      else if e.stopDone.Closed? then
        if e.stopErr then reply.(phase := Failed, startAllowed := false) else reply
      else if e.starting then reply.(phase := Starting)
      else if e.process.None? then reply
      else if !processes[e.process.value].done then reply.(phase := Running)
      else if processes[e.process.value].result.None? then reply.(phase := Failed, startAllowed := false)
      else reply.(phase := Exited, exitCode := processes[e.process.value].result)
  }

  ghost function ProcessAnswer(m: Manager, key: Key, i: nat): Option<nat>
    requires key in m.states ==> m.states[key] in m.entries
  {
    if key in m.states && m.states[key] == i then m.entries[i].process else None
  }

  /** executionManager. The processes it looks at belong to their launchers and are passed in
      as they are at that instant; next names the entry that a launch allocates. */
  class ExecutionManager {
    var states: map<Key, nat>
    var entries: map<nat, Entry>
    var closed: bool

    ghost function Current(): Manager
      reads this
    {
      Manager(states, entries, closed)
    }

    constructor ()
      ensures Current() == EMPTY
    {
      states, entries, closed := map[], map[], false;
    }

    method Start(canceled: bool, key: Key, next: nat, processes: map<nat, Process>) returns (reply: StartReply)
      requires Linked(Current(), processes) && next !in entries
      modifies this`states, this`entries
      ensures reply == old(StartAnswer(Current(), processes, key, canceled, next))
      ensures Current() == if reply.Launched? then old(AfterLaunch(Current(), key, next)) else old(Current())
    {
      if canceled || closed {
        return Refused;
      }
      if key in states {
        var i := states[key];
        var e := entries[i];
        if e.stopDone.Open? {
          return Refused;
        }
        if e.starting {
          return Joined(i);
        }
        if e.process.Some? {
          if !processes[e.process.value].done {
            return Joined(i);
          }
          if processes[e.process.value].result.None? {
            return Refused;
          }
        }
        entries := entries[i := e.(canceled := true)];
      }
      entries := entries[next := Entry(key, None, true, false, false, Absent, false)];
      states := states[key := next];
      return Launched(next);
    }

    /** The section of the launch goroutine. */
    method Publish(i: nat, process: Option<nat>, failed: bool)
      requires i in entries && entries[i].starting
      modifies this`entries
      ensures Current() == old(AfterPublish(Current(), i, process, failed))
    {
      var e := entries[i].(process := process, startErr := failed);
      if failed {
        e := e.(canceled := true);
      }
      entries := entries[i := e.(starting := false)];
    }

    method ReadStatus(key: Key, processes: map<nat, Process>) returns (status: Status)
      requires Linked(Current(), processes)
      ensures status == StatusOf(Current(), processes, key)
    {
      var allowed := !closed;
      if key !in states {
        return Status(Stopped, allowed, None, None);
      }
      var i := states[key];
      var e := entries[i];
      status := Status(Stopped, allowed, Some(i), None);
      if e.stopDone != Absent {
        if e.stopDone == Open {
          return status.(phase := Stopping, startAllowed := false);
        }
        if e.stopErr {
          return status.(phase := Failed, startAllowed := false);
        }
        return;
      }
      if e.starting {
        return status.(phase := Starting);
      }
      if e.process.None? {
        return;
      }
      var process := processes[e.process.value];
      if !process.done {
        return status.(phase := Running);
      }
      allowed := process.result.Some? && !closed;
      status := status.(startAllowed := allowed, phase := Failed);
      if process.result.Some? {
        status := status.(phase := Exited, exitCode := process.result);
      }
    }

    method Resolve(key: Key, i: nat) returns (process: Option<nat>)
      requires key in states ==> states[key] in entries
      ensures process == ProcessAnswer(Current(), key, i)
    {
      if key !in states || states[key] != i || entries[i].process.None? {
        return None;
      }
      return entries[i].process;
    }

    /** The first section of Stop: join a stop in progress or finished, or lead one. */
    method BeginStop(key: Key) returns (entry: StopEntry)
      requires key in states ==> states[key] in entries
      modifies this`entries
      ensures entry == old(StopAnswer(Current(), key))
      ensures Current() == if entry.Lead? then old(AfterBeginStop(Current(), states[key])) else old(Current())
    {
      if key !in states {
        return NothingToStop;
      }
      var i := states[key];
      if entries[i].stopDone != Absent {
        return Join(i);
      }
      entries := entries[i := entries[i].(stopDone := Open, canceled := true)];
      return Lead(i);
    }

    /** The last section of Stop. */
    method FinishStop(i: nat, err: bool)
      requires i in entries && entries[i].stopDone.Open?
      modifies this`entries
      ensures Current() == old(AfterFinishStop(Current(), i, err))
    {
      entries := entries[i := entries[i].(stopErr := err, stopDone := Closed)];
    }

    /** The section of Close: no launch begins from here on. */
    method BeginClose() returns (keys: set<Key>)
      modifies this`closed
      ensures Current() == old(Current()).(closed := true) && keys == states.Keys
    {
      closed := true;
      keys := states.Keys;
    }
  }
}
