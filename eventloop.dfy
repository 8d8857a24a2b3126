/**
 * The generic event loop of eventloop.go: a table from message labels to
 * commands, a pure Update step choosing the next command, and Run, which
 * schedules the start command and then one command per received message.
 *
 * Commands are closures in the source and cannot be compared in Dafny; here
 * a command is an opaque identifier, and NilCmd stands for Go's nil Cmd.
 */
module EventLoop {
  import opened Wrappers

  /** The result label of an I/O operation (Msg is a string type in the source). */
  type Msg = string

  datatype Cmd = NilCmd | Command(id: nat)

  /** A command registered under a label (the `label` field of the source, renamed because `label` is a Dafny keyword). */
  datatype LabelledCmd = LabelledCmd(tag: Msg, cmd: Cmd)

  datatype LoopError = NoCommands | DuplicateLabel(tag: Msg)

  /** No label occurs twice in the list. */
  ghost predicate UniqueLabels(cmds: seq<LabelledCmd>)
  {
    forall i, j :: 0 <= i < j < |cmds| ==> cmds[i].tag != cmds[j].tag
  }

  /** The labels of the list. */
  ghost function LabelSet(cmds: seq<LabelledCmd>): set<Msg>
  {
    set i | 0 <= i < |cmds| :: cmds[i].tag
  }

  /**
   * The map NewEventLoop fills, registering the list from left to right and
   * stopping at the first label that is already registered.
   */
  function CmdTable(cmds: seq<LabelledCmd>): (r: Result<map<Msg, Cmd>, LoopError>)
    ensures r.Failure? ==> r.error.DuplicateLabel? && exists j :: 0 <= j < |cmds| && cmds[j].tag == r.error.tag
    decreases |cmds|
  {
    if |cmds| == 0 then Success(map[])
    else
      var last := cmds[|cmds| - 1];
      match CmdTable(cmds[..|cmds| - 1])
      case Failure(e) => Failure(e)
      case Success(m) =>
        if last.tag in m then Failure(DuplicateLabel(last.tag))
        else Success(m[last.tag := last.cmd])
  }

  /** All that NewEventLoop decides: an empty list fails, otherwise the table. */
  function NewTable(cmds: seq<LabelledCmd>): (r: Result<map<Msg, Cmd>, LoopError>)
    ensures r == Failure(NoCommands) <==> |cmds| == 0
  {
    if |cmds| < 1 then Failure(NoCommands) else CmdTable(cmds)
  }

  /** A failure registering a prefix is the failure of the whole list. */
  lemma {:induction false} CmdTablePrefixFailure(cmds: seq<LabelledCmd>, k: nat)
    requires k <= |cmds| && CmdTable(cmds[..k]).Failure?
    ensures CmdTable(cmds) == CmdTable(cmds[..k])
    decreases |cmds| - k
  {
    if k < |cmds| {
      var n := |cmds|;
      assert cmds[..n - 1][..k] == cmds[..k];
      CmdTablePrefixFailure(cmds[..n - 1], k);
    } else {
      assert cmds[..k] == cmds;
    }
  }

  /** Registration succeeds exactly when the labels are unique. */
  lemma {:induction false} CmdTableSucceedsIffUnique(cmds: seq<LabelledCmd>)
    ensures CmdTable(cmds).Success? <==> UniqueLabels(cmds)
    ensures CmdTable(cmds).Success? ==> CmdTable(cmds).value.Keys == LabelSet(cmds)
    decreases |cmds|
  {
    if |cmds| > 0 {
      var n := |cmds|;
      var init := cmds[..n - 1];
      CmdTableSucceedsIffUnique(init);
      assert LabelSet(cmds) == LabelSet(init) + {cmds[n - 1].tag} by {
        forall l | l in LabelSet(cmds) ensures l in LabelSet(init) + {cmds[n - 1].tag} {
          var i :| 0 <= i < n && cmds[i].tag == l;
          if i < n - 1 { assert init[i] == cmds[i]; }
        }
      }
      if CmdTable(init).Success? && !UniqueLabels(cmds) {
        var i, j :| 0 <= i < j < n && cmds[i].tag == cmds[j].tag;
        if j == n - 1 {
          assert cmds[i].tag in LabelSet(init) by { assert init[i] == cmds[i]; }
        }
      }
      if UniqueLabels(cmds) {
        assert UniqueLabels(init) by {
          forall i, j | 0 <= i < j < n - 1 ensures init[i].tag != init[j].tag {
            assert init[i] == cmds[i] && init[j] == cmds[j];
          }
        }
        assert forall i :: 0 <= i < n - 1 ==> init[i] == cmds[i];
        assert cmds[n - 1].tag !in LabelSet(init);
      }
    }
  }

  /** On success every label is bound to its own command. */
  lemma {:induction false} CmdTableBindsLabels(cmds: seq<LabelledCmd>, i: nat)
    requires i < |cmds| && CmdTable(cmds).Success?
    ensures cmds[i].tag in CmdTable(cmds).value
    ensures CmdTable(cmds).value[cmds[i].tag] == cmds[i].cmd
    decreases |cmds|
  {
    var n := |cmds|;
    var init := cmds[..n - 1];
    assert CmdTable(init).Success?;
    if i < n - 1 {
      assert init[i] == cmds[i];
      CmdTableBindsLabels(init, i);
    }
  }

  /** NewEventLoop fails exactly on an empty list or a repeated label. */
  lemma NewTableFails(cmds: seq<LabelledCmd>)
    ensures NewTable(cmds).Failure? <==> |cmds| == 0 || !UniqueLabels(cmds)
    ensures NewTable(cmds) == Failure(NoCommands) <==> |cmds| == 0
    ensures NewTable(cmds).Success? ==> NewTable(cmds).value.Keys == LabelSet(cmds)
  {
    CmdTableSucceedsIffUnique(cmds);
    if |cmds| > 0 && CmdTable(cmds).Failure? {
      CmdTableFailureIsDuplicate(cmds);
    }
  }

  /** The only way registration fails is a repeated label, and the label it reports repeats. */
  lemma {:induction false} CmdTableFailureIsDuplicate(cmds: seq<LabelledCmd>)
    requires CmdTable(cmds).Failure?
    ensures CmdTable(cmds).error.DuplicateLabel?
    ensures exists i, j :: 0 <= i < j < |cmds| && cmds[i].tag == cmds[j].tag == CmdTable(cmds).error.tag
    decreases |cmds|
  {
    var n := |cmds|;
    var init := cmds[..n - 1];
    if CmdTable(init).Failure? {
      CmdTableFailureIsDuplicate(init);
      var i, j :| 0 <= i < j < n - 1 && init[i].tag == init[j].tag == CmdTable(init).error.tag;
      assert init[i] == cmds[i] && init[j] == cmds[j];
    } else {
      CmdTableSucceedsIffUnique(init);
      var l := cmds[n - 1].tag;
      assert l in LabelSet(init);
      var i :| 0 <= i < n - 1 && init[i].tag == l;
      assert init[i] == cmds[i];
      assert cmds[i].tag == cmds[n - 1].tag == l;
    }
  }

  class EventLoop {
    const defaultCmd: Cmd
    const startCmd: Cmd
    var cmdMap: map<Msg, Cmd>

    constructor (startCmd: Cmd, defaultCmd: Cmd)
      ensures this.startCmd == startCmd && this.defaultCmd == defaultCmd
      ensures cmdMap == map[]
    {
      this.startCmd := startCmd;
      this.defaultCmd := defaultCmd;
      cmdMap := map[];
    }

    /** The decision step: the registered command for msg, else the default command. */
    function Update(msg: Msg): (cmd: Cmd)
      reads this
      ensures cmd == defaultCmd || cmd in cmdMap.Values
    {
      if msg in cmdMap then cmdMap[msg] else defaultCmd
    }

    /**
     * Run with the channel replaced by the sequence of messages the loop
     * receives before the channel closes. The start command is scheduled first,
     * then Update of each received message; scheduling NilCmd is the panic
     * of doCmd, after which nothing more is scheduled.
     */
    method Run(received: seq<Msg>) returns (scheduled: seq<Cmd>, panicked: bool)
      ensures |scheduled| <= |received| + 1
      ensures forall i :: 0 <= i < |scheduled| ==> scheduled[i] != NilCmd
      ensures |scheduled| > 0 ==> scheduled[0] == startCmd
      ensures forall i :: 0 < i < |scheduled| ==> scheduled[i] == Update(received[i - 1])
      ensures !panicked ==> |scheduled| == |received| + 1
      ensures panicked ==> |scheduled| <= |received|
      ensures panicked ==> (if |scheduled| == 0 then startCmd else Update(received[|scheduled| - 1])) == NilCmd
      ensures panicked <==> startCmd == NilCmd || exists i :: 0 <= i < |received| && Update(received[i]) == NilCmd
    {
      scheduled, panicked := [], false;
      if startCmd == NilCmd {
        panicked := true;
        return;
      }
      scheduled := [startCmd];
      var i := 0;
      while i < |received|
        invariant 0 <= i <= |received|
        invariant |scheduled| == i + 1 && scheduled[0] == startCmd
        invariant forall k :: 0 <= k < |scheduled| ==> scheduled[k] != NilCmd
        invariant forall k :: 0 < k < |scheduled| ==> scheduled[k] == Update(received[k - 1])
        invariant forall k :: 0 <= k < i ==> Update(received[k]) != NilCmd
      {
        var cmd := Update(received[i]);
        if cmd == NilCmd {
          panicked := true;
          return;
        }
        scheduled := scheduled + [cmd];
        i := i + 1;
      }
    }
  }

  /**
   * NewEventLoop: an empty list is refused; otherwise the map is filled in
   * place, label by label, failing on the first label already registered.
   */
  method NewEventLoop(cmds: seq<LabelledCmd>, startCmd: Cmd, defaultCmd: Cmd) returns (r: Result<EventLoop, LoopError>)
    ensures r.Failure? <==> NewTable(cmds).Failure?
    ensures r.Failure? ==> r.error == NewTable(cmds).error
    ensures r.Success? ==> fresh(r.value) && r.value.cmdMap == NewTable(cmds).value
    ensures r.Success? ==> r.value.startCmd == startCmd && r.value.defaultCmd == defaultCmd
  {
    if |cmds| < 1 {
      return Failure(NoCommands);
    }
    var e := new EventLoop(startCmd, defaultCmd);
    var i := 0;
    while i < |cmds|
      invariant 0 <= i <= |cmds|
      invariant CmdTable(cmds[..i]) == Success(e.cmdMap)
    {
      var lc := cmds[i];
      assert cmds[..i + 1][..i] == cmds[..i];
      if lc.tag in e.cmdMap {
        CmdTablePrefixFailure(cmds, i + 1);
        return Failure(DuplicateLabel(lc.tag));
      }
      e.cmdMap := e.cmdMap[lc.tag := lc.cmd];
      i := i + 1;
    }
    assert cmds[..i] == cmds;
    return Success(e);
  }

  /** Update returns the command registered under a known label and the default for any other message. */
  lemma UpdateOfRegistered(e: EventLoop, cmds: seq<LabelledCmd>, msg: Msg)
    requires NewTable(cmds).Success? && e.cmdMap == NewTable(cmds).value
    ensures forall i :: 0 <= i < |cmds| ==> e.Update(cmds[i].tag) == cmds[i].cmd
    ensures (forall i :: 0 <= i < |cmds| ==> cmds[i].tag != msg) ==> e.Update(msg) == e.defaultCmd
  {
    forall i | 0 <= i < |cmds| ensures e.Update(cmds[i].tag) == cmds[i].cmd {
      CmdTableBindsLabels(cmds, i);
    }
    NewTableFails(cmds);
  }
}
