/** The stage loop of the shell: one process for each stage, neighbours connected by pipes. */
module ShellPipes {
  import opened Options
  import opened ShellParser
  import opened ShellStages
  import opened ShellText

  // ----------------------------------------------------------------- descriptor tables

  /** What a descriptor stands for. */
  datatype File = Other(id: nat) | ReadEnd(pipe: nat) | WriteEnd(pipe: nat)

  type Table = map<nat, File>

  lemma {:induction false} FullBelow(t: Table, n: nat)
    requires forall k: nat :: k < n ==> k in t
    ensures n <= |t.Keys|
    decreases n
  {
    if n > 0 {
      var t' := t - {n - 1};
      FullBelow(t', n - 1);
      assert t.Keys == t'.Keys + {n - 1};
    }
  }

  /** The lowest descriptor from n on that is not in use. */
  function FreeFrom(t: Table, n: nat): (fd: nat)
    requires forall k: nat :: k < n ==> k in t
    ensures fd !in t && forall k: nat :: k < fd ==> k in t
    decreases |t.Keys| - n
  {
    if n !in t then n else
      FullBelow(t, n + 1);
      FreeFrom(t, n + 1)
  }

  function LowestFree(t: Table): (fd: nat)
    ensures fd !in t && forall k: nat :: k < fd ==> k in t
  {
    FreeFrom(t, 0)
  }

  function Close(t: Table, fd: nat): Table { t - {fd} }

  /** dup: the lowest free descriptor becomes another name for the file. */
  function Dup(t: Table, fd: nat): Table
    requires fd in t
  {
    t[LowestFree(t) := t[fd]]
  }

  /** Closing a standard descriptor, duplicating another and closing that one moves it to the standard one. */
  lemma Redirect(t: Table, standard: nat, fd: nat)
    requires standard in t && fd in t && fd != standard && forall k: nat :: k < standard ==> k in t
    ensures Close(Dup(Close(t, standard), fd), fd) == Close(t[standard := t[fd]], fd)
  {
    var t' := Close(t, standard);
    assert LowestFree(t') == standard;
    assert t'[standard := t'[fd]] == t[standard := t[fd]];
  }

  // ------------------------------------------------------------------------ processes

  datatype Process = Process(arguments: seq<string>, table: Table)

  /** The table of a stage: its input and output, and the read end of its output that it never closes. */
  function StageTable(base: Table, input: Option<nat>, output: Option<nat>, extra: nat): Table {
    var t := if input.Some? then base[0 := ReadEnd(input.value)] else base;
    if output.Some? then t[1 := WriteEnd(output.value)][extra := ReadEnd(output.value)] else t
  }

  ghost predicate IsStage(t: Table, base: Table, input: Option<nat>, output: Option<nat>) {
    exists extra: nat :: extra !in base && t == StageTable(base, input, output, extra)
  }

  function InputOf(input: Option<nat>, first: nat, i: nat): Option<nat> {
    if i == 0 then input else Some(first + i - 1)
  }

  function OutputOf(first: nat, i: nat, last: bool): Option<nat> {
    if last then None else Some(first + i)
  }

  /**
    The processes of the stages. The first reads the pipe `input` if there is one, the others the pipes
    from `first` on; closed when the last stage writes to no pipe.
   */
  ghost predicate Wired(ps: seq<Process>, base: Table, input: Option<nat>, first: nat, stages: seq<seq<string>>, closed: bool) {
    && |ps| == |stages|
    && forall i :: 0 <= i < |ps| ==>
         && ps[i].arguments == stages[i]
         && IsStage(ps[i].table, base, InputOf(input, first, i), OutputOf(first, i, closed && i == |stages| - 1))
  }

  /** The first process writes what the second reads, and keeps a read end of the pipe open besides. */
  ghost predicate Connected(left: Process, right: Process, base: Table, pipe: nat) {
    && 1 in left.table && left.table[1] == WriteEnd(pipe) && 0 in right.table && right.table[0] == ReadEnd(pipe)
    && KeepsReadEnd(left, base, pipe)
  }

  ghost predicate KeepsReadEnd(p: Process, base: Table, pipe: nat) {
    exists fd: nat :: fd !in base && fd in p.table && p.table[fd] == ReadEnd(pipe)
  }

  /** No end of a pipe with this or a higher number is in the table. */
  ghost predicate NoPipesFrom(t: Table, first: nat) {
    forall fd :: fd in t ==> (t[fd].ReadEnd? || t[fd].WriteEnd?) ==> t[fd].pipe < first
  }

  /**
    A pipeline is connected: each stage writes what the next one reads, the ends are the shell's own
    input and output, and a pipe's write end is held by its writer's output alone, so that the reader
    sees the end of the data when the writer is done. The writer keeps a read end of the pipe as well.
   */
  lemma PipelineConnects(ps: seq<Process>, base: Table, first: nat, stages: seq<seq<string>>)
    requires Wired(ps, base, None, first, stages, true) && 0 in base && 1 in base && NoPipesFrom(base, first) && |ps| > 0
    ensures forall i :: 0 <= i < |ps| ==> 0 in ps[i].table && 1 in ps[i].table
    ensures forall i :: 0 < i < |ps| ==> Connected(ps[i - 1], ps[i], base, first + i - 1)
    ensures ps[0].table[0] == base[0] && ps[|ps| - 1].table[1] == base[1]
    ensures forall i, fd :: 0 <= i < |ps| && fd in ps[i].table ==> ps[i].table[fd].WriteEnd? ==>
      ps[i].table[fd].pipe >= first ==> fd == 1 && i < |ps| - 1 && ps[i].table[fd].pipe == first + i
  {
    assert IsStage(ps[0].table, base, None, OutputOf(first, 0, |stages| == 1));
    forall i | 0 < i < |ps| ensures Connected(ps[i - 1], ps[i], base, first + i - 1) {
      assert IsStage(ps[i - 1].table, base, InputOf(None, first, i - 1), Some(first + i - 1));
      assert IsStage(ps[i].table, base, Some(first + i - 1), OutputOf(first, i, i == |stages| - 1));
      var extra: nat :| extra !in base
        && ps[i - 1].table == StageTable(base, InputOf(None, first, i - 1), Some(first + i - 1), extra);
      assert extra in ps[i - 1].table && ps[i - 1].table[extra] == ReadEnd(first + i - 1);
    }
  }

  // ------------------------------------------------------------------------ the shell

  /** What the child makes of the table it inherits before it runs its command. */
  function Redirected(t: Table, pending: bool, oldRead: nat, present: bool, newWrite: nat): Table
    requires 0 in t && 1 in t && (pending ==> oldRead in t && oldRead > 1) && (present ==> newWrite in t && newWrite > 1)
    requires pending && present ==> oldRead != newWrite
  {
    var t := if pending then Close(Dup(Close(t, 0), oldRead), oldRead) else t;
    assert pending ==> LowestFree(Close(t, 0)) == 0;
    if present then Close(Dup(Close(t, 1), newWrite), newWrite) else t
  }

  lemma RedirectedIsStage(base: Table, t: Table, pending: bool, oldRead: nat, present: bool, newRead: nat, newWrite: nat,
                          pipe: nat, pipe': nat)
    requires 0 in base && 1 in base
    requires pending ==> oldRead !in base
    requires present ==> newRead !in base && newWrite !in base && newRead != newWrite
    requires pending && present ==> oldRead != newRead && oldRead != newWrite
    requires var t0 := if pending then base[oldRead := ReadEnd(pipe)] else base;
      t == if present then t0[newRead := ReadEnd(pipe')][newWrite := WriteEnd(pipe')] else t0
    ensures IsStage(Redirected(t, pending, oldRead, present, newWrite), base,
                    if pending then Some(pipe) else None, if present then Some(pipe') else None)
  {
    var t0 := if pending then base[0 := ReadEnd(pipe)] else base;
    var t1 := if present then t0[newRead := ReadEnd(pipe')][newWrite := WriteEnd(pipe')] else t0;
    if pending {
      Redirect(t, 0, oldRead);
      assert Close(t[0 := ReadEnd(pipe)], oldRead) == t1;
    }
    OutputRedirected(base, t0, t1, if pending then Some(pipe) else None, present, newRead, newWrite, pipe');
  }

  lemma OutputRedirected(base: Table, t0: Table, t1: Table, input: Option<nat>, present: bool, newRead: nat, newWrite: nat,
                         pipe': nat)
    requires 0 in base && 1 in base && t0 == if input.Some? then base[0 := ReadEnd(input.value)] else base
    requires present ==> newRead !in base && newWrite !in base && newRead != newWrite
    requires t1 == if present then t0[newRead := ReadEnd(pipe')][newWrite := WriteEnd(pipe')] else t0
    ensures IsStage(if present then Close(Dup(Close(t1, 1), newWrite), newWrite) else t1, base, input,
                    if present then Some(pipe') else None)
  {
    if present {
      Redirect(t1, 1, newWrite);
      var t2 := Close(t1[1 := WriteEnd(pipe')], newWrite);
      assert t2 == StageTable(base, input, Some(pipe'), newRead);
    } else {
      var extra := LowestFree(base);
      assert t1 == StageTable(base, input, None, extra);
    }
  }

  /** What the shell keeps after a fork. */
  lemma KeptTable(base: Table, t: Table, pending: bool, oldRead: nat, present: bool, newRead: nat, newWrite: nat,
                  pipe: nat, pipe': nat)
    requires pending ==> oldRead !in base
    requires present ==> newRead !in base && newWrite !in base && newRead != newWrite
    requires pending && present ==> oldRead != newRead && oldRead != newWrite
    requires var t0 := if pending then base[oldRead := ReadEnd(pipe)] else base;
      t == if present then t0[newRead := ReadEnd(pipe')][newWrite := WriteEnd(pipe')] else t0
    ensures t - (if pending then {oldRead} else {}) - (if present then {newWrite} else {})
      == if present then base[newRead := ReadEnd(pipe')] else base
  {
  }

  class Shell {
    /** The shell's own descriptors, as they are between two command lines. */
    ghost const base: Table
    var table: Table
    var pipePending: bool
    /** old_pipe_descriptors[0], meaningful while a pipe is pending */
    var oldRead: nat
    /** Pipes created so far; the kernel's name for the next one. */
    var pipes: nat
    var launched: seq<Process>

    /** Exactly one read end is open besides the shell's own descriptors while a pipe is pending, and none otherwise. */
    ghost predicate Valid()
      reads this
    {
      && 0 in base && 1 in base && NoPipesFrom(base, pipes)
      && if pipePending then
           && oldRead !in base && oldRead in table && table == base[oldRead := table[oldRead]]
           && table[oldRead].ReadEnd? && table[oldRead].pipe < pipes
         else table == base
    }

    /** The pipe that the next stage will read. */
    ghost function Input(): Option<nat>
      requires Valid()
      reads this
    {
      if pipePending then Some(table[oldRead].pipe) else None
    }

    constructor (base: Table)
      requires 0 in base && 1 in base && forall fd :: fd in base ==> base[fd].Other?
      ensures Valid() && this.base == base && !pipePending && launched == [] && pipes == 0
    {
      this.base := base;
      table, pipePending, oldRead, pipes, launched := base, false, 0, 0, [];
    }

    /** pipe: the two lowest free descriptors. */
    method OpenPipe() returns (read: nat, write: nat)
      requires 0 in table && 1 in table
      modifies this`table, this`pipes
      ensures read == LowestFree(old(table)) && write == LowestFree(old(table)[read := ReadEnd(old(pipes))])
      ensures pipes == old(pipes) + 1
      ensures table == old(table)[read := ReadEnd(old(pipes))][write := WriteEnd(old(pipes))]
    {
      read := LowestFree(table);
      table := table[read := ReadEnd(pipes)];
      write := LowestFree(table);
      table := table[write := WriteEnd(pipes)];
      pipes := pipes + 1;
    }

    /** What the shell closes after a fork: the read end of the pipe before, and the write end of the new one. */
    method KeepReadEnd(present: bool, newRead: nat, newWrite: nat)
      modifies this`table, this`oldRead, this`pipePending
      ensures pipePending == present && (present ==> oldRead == newRead)
      ensures table == old(table) - (if old(pipePending) then {old(oldRead)} else {}) - (if present then {newWrite} else {})
    {
      if pipePending {
        table := Close(table, oldRead);
        pipePending := false;
      }
      if present {
        table := Close(table, newWrite);
        oldRead := newRead;
        pipePending := true;
      }
    }

    /** Starts one stage: pipe, fork, the child's redirections, and what the shell closes. */
    method Launch(arguments: seq<string>, present: bool)
      requires Valid()
      modifies this
      ensures Valid()
      ensures pipes == old(pipes) + if present then 1 else 0
      ensures Input() == if present then Some(old(pipes)) else None
      ensures |launched| == |old(launched)| + 1 && launched == old(launched) + [launched[|old(launched)|]]
      ensures launched[|old(launched)|].arguments == arguments
      ensures IsStage(launched[|old(launched)|].table, base, old(Input()), if present then Some(old(pipes)) else None)
    {
      ghost var read := if pipePending then table[oldRead].pipe else 0;
      var newRead, newWrite := 0, 0;
      if present {
        newRead, newWrite := OpenPipe();
      }
      RedirectedIsStage(base, table, pipePending, oldRead, present, newRead, newWrite, read, old(pipes));
      KeptTable(base, table, pipePending, oldRead, present, newRead, newWrite, read, old(pipes));
      var child := Redirected(table, pipePending, oldRead, present, newWrite);
      launched := launched + [Process(arguments, child)];
      KeepReadEnd(present, newRead, newWrite);
    }

    /**
      The do-while loop over the stages of a command line, for every line: what is launched, how it is
      wired, and when a pipe is pending afterwards. A pipe pending before is read by the first stage.
     */
    method RunLine(line: array<char>)
      requires Valid() && Terminated(line[..], 0) && line.Length <= COMMAND_LENGTH + 1
      modifies this, line
      ensures Valid()
      ensures |old(launched)| <= |launched| && launched[..|old(launched)|] == old(launched)
      ensures var ws := Words(old(line[..]), 0);
        && Wired(launched[|old(launched)|..], base, old(Input()), old(pipes), Launched(ws), !LeavesPipe(ws))
        && pipePending == if ws == [] then old(pipePending) else LeavesPipe(ws)
    {
      ghost var rest, input, ps, done := Words(line[..], 0), Input(), [], [];
      ghost var stages, leaves, input0, first, before := Launched(rest), LeavesPipe(rest), input, pipes, launched;
      var pos, more := 0, true;
      while more
        invariant Valid() && launched == before + ps && input == Input()
        invariant more ==> Terminated(line[..], pos) && rest == Words(line[..], pos)
        invariant stages == done + Launched(rest)
        invariant OnTrack(rest, more, ps, base, input0, first, done, leaves, input, pipes)
        decreases if more then line.Length + 1 - pos else 0
      {
        ghost var was, had, ws := launched, pipes, rest;
        var blank, present, arguments, next := ParseStage(line, pos);
        if blank {
          break;
        }
        Launch(arguments, present);
        ghost var child := launched[|was|];
        Appended(before, ps, child);
        rest := if present then Following(ws) else [];
        StageStep(ws, ps, child, base, input0, first, done, leaves, input, had, Input(), pipes, present, rest);
        LaunchedOn(ws, arguments, rest, done);
        ps, done, input := ps + [child], done + [arguments], Input();
        if next.Some? {
          pos := next.value;
        } else {
          more := false;
        }
      }
      assert stages == done && launched[|before|..] == ps;
      assert more ==> (ps == [] <==> done == []);
    }
  }

  /**
    What holds between two stages: the processes of the stages done are wired, and the line leaves a pipe
    in the end if the words that are left do, or if nothing is left to read the last one.
   */
  ghost predicate OnTrack(rest: seq<string>, more: bool, ps: seq<Process>, base: Table, input0: Option<nat>, first: nat,
                          done: seq<seq<string>>, leaves: bool, input: Option<nat>, pipes: nat) {
    && Wired(ps, base, input0, first, done, !more)
    && if more then
         && input == InputOf(input0, first, |ps|) && pipes == first + |ps|
         && leaves == if rest == [] then ps != [] else LeavesPipe(rest)
       else rest == [] && input == None && !leaves && ps != []
  }

  lemma StageStep(ws: seq<string>, ps: seq<Process>, child: Process, base: Table, input0: Option<nat>, first: nat,
                  done: seq<seq<string>>, leaves: bool, input: Option<nat>, pipes: nat, output: Option<nat>, pipes': nat,
                  more: bool, rest: seq<string>)
    requires ws != [] && OnTrack(ws, true, ps, base, input0, first, done, leaves, input, pipes)
    requires more == MoreStages(ws) && rest == if more then Following(ws) else []
    requires IsStage(child.table, base, input, output) && output == if more then Some(pipes) else None
    requires pipes' == pipes + if more then 1 else 0
    ensures OnTrack(rest, more, ps + [child], base, input0, first, done + [child.arguments], leaves, output, pipes')
  {
    LeavesOn(ws, more, rest);
    WiredOn(ps, child, base, input0, first, done, child.arguments, more);
  }

  lemma LeavesOn(ws: seq<string>, more: bool, rest: seq<string>)
    requires ws != [] && more == MoreStages(ws) && rest == if more then Following(ws) else []
    ensures LeavesPipe(ws) == (more && (rest == [] || LeavesPipe(rest)))
  {
  }

  lemma Appended(before: seq<Process>, ps: seq<Process>, child: Process)
    ensures before + ps + [child] == before + (ps + [child])
  {
  }

  lemma LaunchedOn(ws: seq<string>, stage: seq<string>, rest: seq<string>, done: seq<seq<string>>)
    requires ws != [] && stage == ws[..StageLength(ws)] && rest == if MoreStages(ws) then Following(ws) else []
    ensures done + Launched(ws) == (done + [stage]) + Launched(rest)
  {
    var now, later := Launched(ws), Launched(rest);
    assert now == [stage] + later;
  }

  /** One more process behind an open pipeline. */
  lemma WiredOn(ps: seq<Process>, p: Process, base: Table, input: Option<nat>, first: nat, stages: seq<seq<string>>,
                stage: seq<string>, present: bool)
    requires Wired(ps, base, input, first, stages, false) && p.arguments == stage
    requires IsStage(p.table, base, InputOf(input, first, |stages|), if present then Some(first + |stages|) else None)
    ensures Wired(ps + [p], base, input, first, stages + [stage], !present)
  {
    var ps', stages' := ps + [p], stages + [stage];
    forall i | 0 <= i < |ps'|
      ensures ps'[i].arguments == stages'[i]
      ensures IsStage(ps'[i].table, base, InputOf(input, first, i), OutputOf(first, i, !present && i == |stages'| - 1))
    {
      if i < |ps| {
        assert IsStage(ps[i].table, base, InputOf(input, first, i), OutputOf(first, i, false && i == |stages| - 1));
      }
    }
  }
}
