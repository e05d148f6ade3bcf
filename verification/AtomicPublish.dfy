/**
 The no-replace publication of scripts/prepare_mapping_dirty_audit_receipt.py.
 Other processes act between any two system calls, every call may fail or be broken off by a
 signal, and short writes and reads are arbitrary: the schedule of turns is unknown.  Others are
 only assumed to leave the new private file itself alone (its bytes, its mode, and giving it
 further names); what they do to names, also to the temporary and the target name, is free.
 */
module AtomicPublish {
  type Byte = x: int | 0 <= x < 256
  type Name = nat
  type Inode = nat

  datatype Option<+T> = None | Some(value: T)

  const PRIVATE_MODE: nat := 384
  const READ_CHUNK: nat := 65536
  const NAME_ATTEMPTS: nat := 32

  datatype File = File(content: seq<Byte>, mode: nat, uid: nat)

  /** The directory, and the file that this run created in it. */
  datatype State = State(names: map<Name, Inode>, files: map<Inode, File>, owned: Option<Inode>)

  datatype Interference = Rest | Change(names: map<Name, Inode>, files: map<Inode, File>)

  /** A call works, is refused without effect, or takes effect and is then broken off by a signal. */
  datatype Fault = Works | Refused | Breaks

  datatype Turn = Turn(others: Interference, fault: Fault, amount: int, token: Name, inode: Inode, mode: nat, uid: nat)

  datatype Call =
    | CheckParent
    | FindTarget
    | Create(name: Name)
    | FreshStat
    | Chmod
    | Append(rest: seq<Byte>)
    | Sync
    | FinalStat
    | CloseTemp
    | Validate
    | Open(name: Name)
    | Inspect
    | Read
    | Link(from: Name)
    | Drop(name: Name)
    | CleanClose
    | CleanStat(name: Name)
    | CleanRemove(name: Name)
    | CleanSync
    | CloseParent

  /** A system call of this run with the directory as the call found it and as it left it. */
  datatype Act = Act(call: Call, turn: Turn, before: State, after: State)

  datatype Failure = Audit | Os | Signal

  // ----- What the calls and the others do -----

  predicate Ours(s: State, n: Name) {
    n in s.names && s.owned == Some(s.names[n])
  }

  function NamesOfOurs(s: State): set<Name> {
    set n | n in s.names && Ours(s, n)
  }

  function Foreign(s: State): map<Name, Inode> {
    map n | n in s.names && !Ours(s, n) :: s.names[n]
  }

  predicate HasFile(s: State) {
    s.owned.Some? && s.owned.value in s.files
  }

  /** The file that this run created. */
  function OurFile(s: State): File
    requires HasFile(s)
  {
    s.files[s.owned.value]
  }

  predicate WellFormed(s: State) {
    s.owned.Some? ==> HasFile(s)
  }

  function Interfere(s: State, others: Interference): State {
    match others
    case Rest => s
    case Change(names, files) =>
      State(
        map n | n in names && (s.owned != Some(names[n]) || Ours(s, n)) :: names[n],
        if HasFile(s) then files[s.owned.value := OurFile(s)] else files,
        s.owned)
  }

  /** An inode number that is in use nowhere, starting the search at a hint. */
  function Unused(used: set<Inode>, hint: Inode): (i: Inode)
    ensures i !in used && hint <= i
    decreases |used|
  {
    if hint !in used then hint else Unused(used - {hint}, hint + 1)
  }

  function Written(rest: seq<Byte>, amount: int): nat {
    if amount <= 0 then 0 else if amount <= |rest| then amount else |rest|
  }

  /** The effect of a call that takes place; the removal in the cleanup is one step with its stat. */
  function Effect(s: State, call: Call, turn: Turn, target: Name): State {
    match call
    case Create(n) =>
      if n in s.names then s
      else
        var i := Unused(s.names.Values + s.files.Keys, turn.inode);
        State(s.names[n := i], s.files[i := File([], turn.mode, turn.uid)], Some(i))
    case Chmod =>
      if HasFile(s) then s.(files := s.files[s.owned.value := OurFile(s).(mode := PRIVATE_MODE)]) else s
    case Append(rest) =>
      if HasFile(s) then
        s.(files := s.files[s.owned.value :=
          OurFile(s).(content := OurFile(s).content + rest[..Written(rest, turn.amount)])])
      else s
    case Link(from) =>
      if target in s.names || from !in s.names then s else s.(names := s.names[target := s.names[from]])
    case Drop(n) => s.(names := s.names - {n})
    case CleanRemove(n) => s.(names := s.names - {n})
    case _ => s
  }

  function Found(s: State, call: Call, turn: Turn): State {
    if call.CleanRemove? then s else Interfere(s, turn.others)
  }

  function MakeAct(s: State, call: Call, turn: Turn, target: Name): Act {
    var found := Found(s, call, turn);
    Act(call, turn, found, if turn.fault.Refused? then found else Effect(found, call, turn, target))
  }

  // ----- What a run promises -----

  ghost predicate Complete(f: File, payload: seq<Byte>) {
    f.content == payload && f.mode == PRIVATE_MODE
  }

  /** The target never names the new file unless the file is whole. */
  ghost predicate NeverPartial(s: State, target: Name, payload: seq<Byte>) {
    Ours(s, target) && HasFile(s) ==> Complete(OurFile(s), payload)
  }

  /**
   No name is ever rebound, only names of the new file are removed, and the files of others
   keep their contents.  The one exception is the removal of the temporary name after the link,
   which does not look at what the name stands for.
   */
  ghost predicate Respectful(a: Act) {
    && (forall n :: n in a.before.names && n in a.after.names ==> a.after.names[n] == a.before.names[n])
    && (forall n :: n in a.before.names && n !in a.after.names ==> Ours(a.before, n) || a.call == Drop(n))
    && (forall i :: i in a.before.files && a.after.owned != Some(i) ==> i in a.after.files && a.after.files[i] == a.before.files[i])
  }

  /** The temporary name was taken over by others before the run removed it. */
  predicate DropsForeign(a: Act) {
    && a.call.Drop?
    && !a.turn.fault.Refused?
    && a.call.name in a.before.names
    && !Ours(a.before, a.call.name)
  }

  ghost predicate RemovesForeign(a: Act) {
    exists n :: n in a.before.names && n !in a.after.names && !Ours(a.before, n)
  }

  function Latest(log: seq<Act>, start: State): State {
    if log == [] then start else log[|log| - 1].after
  }

  /** The k-th act follows from the one before it, respects the others, and never exposes a part. */
  ghost predicate Lawful(log: seq<Act>, k: nat, start: State, turns: nat -> Turn, target: Name, payload: seq<Byte>)
    requires k < |log|
  {
    && log[k] == MakeAct(if k == 0 then start else log[k - 1].after, log[k].call, turns(k), target)
    && Respectful(log[k])
    && log[k].call != Drop(target)
    && NeverPartial(log[k].before, target, payload)
    && NeverPartial(log[k].after, target, payload)
  }

  ghost predicate IsRun(log: seq<Act>, start: State, turns: nat -> Turn, target: Name, payload: seq<Byte>) {
    forall k: nat :: k < |log| ==> Lawful(log, k, start, turns, target, payload)
  }

  /** Others acted during the run. */
  ghost predicate Disturbed(log: seq<Act>) {
    log != [] && (!log[|log| - 1].turn.others.Rest? || Disturbed(log[..|log| - 1]))
  }

  ghost predicate Stranded(log: seq<Act>) {
    log != [] && (Strands(log[|log| - 1]) || Stranded(log[..|log| - 1]))
  }

  ghost predicate Troubled(log: seq<Act>, target: Name, euid: nat) {
    log != [] && (Trouble(log[|log| - 1], target, euid) || Troubled(log[..|log| - 1], target, euid))
  }

  predicate InCleanup(call: Call) {
    call.CleanClose? || call.CleanStat? || call.CleanRemove? || call.CleanSync? || call.CloseParent?
  }

  /** The acts that leave a name of the new file behind. */
  predicate Strands(a: Act) {
    match a.call
    case Create(_) => a.turn.fault.Breaks? && a.after.names != a.before.names
    case Link(_) => a.turn.fault.Breaks? && a.after.names != a.before.names
    case FreshStat => !a.turn.fault.Works?
    case _ =>
      && InCleanup(a.call)
      && ((a.turn.fault.Breaks? && NamesOfOurs(a.after) != {})
          || (a.turn.fault.Refused? && (a.call.CleanStat? || a.call.CleanRemove?) && Ours(a.before, a.call.name)))
  }

  /** Something the run is right to stop for. */
  predicate Trouble(a: Act, target: Name, euid: nat) {
    || !a.turn.fault.Works?
    || !a.turn.others.Rest?
    || ((a.call.FindTarget? || a.call.Link?) && target in a.before.names)
    || (a.call.Create? && (a.call.name in a.before.names || a.turn.uid != euid))
    || (a.call.Append? && a.turn.amount <= 0)
  }

  // ----- Lemmas about states -----

  lemma InterferenceKeeps(s: State, others: Interference)
    requires WellFormed(s)
    ensures var t := Interfere(s, others);
      && WellFormed(t) && t.owned == s.owned
      && NamesOfOurs(t) <= NamesOfOurs(s)
      && (HasFile(s) ==> HasFile(t) && OurFile(t) == OurFile(s))
  {
  }

  /** Others cannot make the target name a part of the file. */
  lemma {:induction false} OthersNeverExpose(s: State, others: Interference, target: Name, payload: seq<Byte>)
    requires WellFormed(s) && NeverPartial(s, target, payload)
    ensures NeverPartial(Interfere(s, others), target, payload)
  {
    InterferenceKeeps(s, others);
  }

  lemma {:induction false} DisturbanceIsTrouble(log: seq<Act>, target: Name, euid: nat)
    requires Disturbed(log)
    ensures Troubled(log, target, euid)
  {
    if log[|log| - 1].turn.others.Rest? {
      DisturbanceIsTrouble(log[..|log| - 1], target, euid);
    }
  }

  /** A run takes away a name of another file exactly where its temporary name was taken over. */
  lemma OnlyATakenOverNameIsRemoved(
    log: seq<Act>, k: nat, start: State, turns: nat -> Turn, target: Name, payload: seq<Byte>)
    requires IsRun(log, start, turns, target, payload) && k < |log|
    ensures RemovesForeign(log[k]) <==> DropsForeign(log[k])
  {
    var a := log[k];
    assert Lawful(log, k, start, turns, target, payload);
    if DropsForeign(a) {
      assert a.call.name in a.before.names && a.call.name !in a.after.names;
    }
  }

  /** The file that others have put under the target name stays there until others change it. */
  lemma {:induction false} ExistingTargetStays(
    log: seq<Act>, k: nat, start: State, turns: nat -> Turn, target: Name, payload: seq<Byte>)
    requires IsRun(log, start, turns, target, payload) && k < |log|
    requires target in log[k].before.names && !Ours(log[k].before, target)
    requires forall j :: k < j < |log| && target in log[j - 1].after.names ==>
      target in log[j].before.names && log[j].before.names[target] == log[j - 1].after.names[target]
    requires forall j :: k <= j < |log| ==> log[j].before.owned == None || log[j].before.owned.value != log[k].before.names[target]
    ensures target in log[|log| - 1].after.names && log[|log| - 1].after.names[target] == log[k].before.names[target]
    decreases |log|
  {
    var last := |log| - 1;
    assert Lawful(log, last, start, turns, target, payload);
    if k < last {
      var init := log[..last];
      forall j: nat | j < |init| ensures Lawful(init, j, start, turns, target, payload) {
        assert Lawful(log, j, start, turns, target, payload);
      }
      ExistingTargetStays(init, k, start, turns, target, payload);
    }
  }

  lemma LookIsHarmless(s: State, call: Call, turn: Turn, target: Name, payload: seq<Byte>)
    requires WellFormed(s) && NeverPartial(s, target, payload) && OnlyLooks(call)
    ensures var a := MakeAct(s, call, turn, target);
      && Respectful(a) && a.before == a.after && WellFormed(a.after)
      && NeverPartial(a.after, target, payload)
  {
    InterferenceKeeps(s, turn.others);
  }

  predicate OnlyLooks(call: Call) {
    !(call.Create? || call.Chmod? || call.Append? || call.Link? || call.Drop? || call.CleanRemove?)
  }

  lemma CreateIsHarmless(s: State, n: Name, turn: Turn, target: Name, payload: seq<Byte>)
    requires s.owned == None && n != target
    ensures var a := MakeAct(s, Create(n), turn, target);
      && Respectful(a) && WellFormed(a.before) && WellFormed(a.after)
      && NamesOfOurs(a.before) == {}
      && NeverPartial(a.before, target, payload) && NeverPartial(a.after, target, payload)
      && (if turn.fault.Refused? || n in a.before.names then a.after == a.before
          else
            && NamesOfOurs(a.after) == {n} && HasFile(a.after) && a.after.names != a.before.names
            && Foreign(a.after) == Foreign(a.before)
            && OurFile(a.after) == File([], turn.mode, turn.uid))
  {
    var a := MakeAct(s, Create(n), turn, target);
    if !turn.fault.Refused? && n !in a.before.names {
      var i := a.after.owned.value;
      forall m | m in a.before.names ensures a.before.names[m] != i {
        assert a.before.names[m] in a.before.names.Values;
      }
    }
  }

  /** Filling the file changes nothing else, as long as the target does not name it. */
  lemma FillIsHarmless(s: State, call: Call, turn: Turn, target: Name, payload: seq<Byte>)
    requires HasFile(s) && !Ours(s, target) && (call.Chmod? || call.Append?)
    ensures var a := MakeAct(s, call, turn, target);
      && Respectful(a) && HasFile(a.after) && a.after.owned == s.owned && a.after.names == a.before.names
      && NamesOfOurs(a.before) <= NamesOfOurs(s)
      && NeverPartial(a.before, target, payload) && NeverPartial(a.after, target, payload)
  {
    InterferenceKeeps(s, turn.others);
  }

  lemma LinkIsHarmless(s: State, from: Name, turn: Turn, target: Name, payload: seq<Byte>)
    requires HasFile(s) && Complete(OurFile(s), payload)
    ensures var a := MakeAct(s, Link(from), turn, target);
      && Respectful(a) && HasFile(a.after) && OurFile(a.after) == OurFile(s) && a.after.owned == s.owned
      && NamesOfOurs(a.before) <= NamesOfOurs(s)
      && NamesOfOurs(a.after) <= NamesOfOurs(a.before) + {target}
      && NeverPartial(a.before, target, payload) && NeverPartial(a.after, target, payload)
      && (from in NamesOfOurs(a.before) && target !in a.before.names && !turn.fault.Refused? ==>
            && NamesOfOurs(a.after) == NamesOfOurs(a.before) + {target}
            && a.after.names != a.before.names
            && Foreign(a.after) == Foreign(a.before))
      && (turn.fault.Refused? || target in a.before.names ==> a.after == a.before)
  {
    InterferenceKeeps(s, turn.others);
  }

  lemma RemovalIsHarmless(s: State, call: Call, turn: Turn, target: Name, payload: seq<Byte>)
    requires HasFile(s) && NeverPartial(s, target, payload)
    requires call.Drop? || (call.CleanRemove? && Ours(s, call.name))
    ensures var a := MakeAct(s, call, turn, target);
      && Respectful(a) && HasFile(a.after) && OurFile(a.after) == OurFile(s) && a.after.owned == s.owned
      && NamesOfOurs(a.before) <= NamesOfOurs(s)
      && NeverPartial(a.before, target, payload) && NeverPartial(a.after, target, payload)
      && NamesOfOurs(a.after) == NamesOfOurs(a.before) - (if turn.fault.Refused? then {} else {call.name})
      && (call.name in NamesOfOurs(a.before) ==> Foreign(a.after) == Foreign(a.before))
  {
    InterferenceKeeps(s, turn.others);
  }

  /** The directory is as at the start exactly when no name stands for the new file. */
  lemma RestoredWithoutOurs(s: State, start: State)
    requires Foreign(s) == start.names
    ensures s.names == start.names <==> NamesOfOurs(s) == {}
  {
    forall n | n in NamesOfOurs(s) ensures n !in start.names {
      assert n !in Foreign(s);
    }
    if NamesOfOurs(s) == {} {
      assert forall n :: n in s.names ==> n !in NamesOfOurs(s);
    }
  }

  lemma AddedOurs(s: State, start: State, n: Name)
    requires Foreign(s) == start.names && NamesOfOurs(s) == {n} && s.owned.Some?
    ensures n !in start.names && s.names == start.names[n := s.owned.value]
  {
    assert n in NamesOfOurs(s);
    assert n !in Foreign(s);
    forall m | m in s.names && m != n ensures m in start.names && start.names[m] == s.names[m] {
      assert m !in NamesOfOurs(s);
      assert m in Foreign(s);
    }
    forall m | m in start.names ensures m in s.names && start.names[m] == s.names[m] {
      assert m in Foreign(s);
    }
  }

  // ----- Two runs -----

  /** A lawful call makes a longer run. */
  lemma RunGrows(log: seq<Act>, call: Call, start: State, turns: nat -> Turn, target: Name, payload: seq<Byte>)
    requires IsRun(log, start, turns, target, payload) && call != Drop(target)
    requires var a := MakeAct(Latest(log, start), call, turns(|log|), target);
      Respectful(a) && NeverPartial(a.before, target, payload) && NeverPartial(a.after, target, payload)
    ensures IsRun(log + [MakeAct(Latest(log, start), call, turns(|log|), target)], start, turns, target, payload)
  {
    var next := log + [MakeAct(Latest(log, start), call, turns(|log|), target)];
    forall k: nat | k < |next| ensures Lawful(next, k, start, turns, target, payload) {
      if k < |log| {
        assert Lawful(log, k, start, turns, target, payload);
      }
    }
  }

  const TARGET: Name := 2
  const TEMP: Name := 1
  const CONTENT: seq<Byte> := [7]
  const EMPTY: State := State(map[], map[], None)

  function Quiet(fault: Fault): Turn {
    Turn(Rest, fault, 1, TEMP, 20, PRIVATE_MODE, 0)
  }

  /** The directory while the new file has the given names. */
  function With(names: map<Name, Inode>, content: seq<Byte>): State {
    State(names, map[20 := File(content, PRIVATE_MODE, 0)], Some(20))
  }

  /** Others put a file of their own under the temporary name. */
  function TakeOver(): Turn {
    Quiet(Works).(others := Change(map[TEMP := 30, TARGET := 20], map[30 := File([8], 0, 1)]))
  }

  /** In these two schedules one turn is special and all others are quiet. */
  function Except(special: nat, turn: Turn): nat -> Turn {
    k => if k == special then turn else Quiet(Works)
  }

  function Calls(log: seq<Act>): seq<Call> {
    seq(|log|, k requires 0 <= k < |log| => log[k].call)
  }

  /** The run so far, the calls it made, and the directory it has reached. */
  ghost predicate Reached(log: seq<Act>, turns: nat -> Turn, calls: seq<Call>, s: State) {
    IsRun(log, EMPTY, turns, TARGET, CONTENT) && Calls(log) == calls && Latest(log, EMPTY) == s
  }

  lemma CallsGrow(log: seq<Act>, a: Act)
    ensures Calls(log + [a]) == Calls(log) + [a.call] && Latest(log + [a], EMPTY) == a.after
  {
  }

  /** One call of the run, whose effect on the directory is known. */
  lemma Go(log: seq<Act>, turns: nat -> Turn, calls: seq<Call>, s: State, call: Call, t: State) returns (next: seq<Act>)
    requires Reached(log, turns, calls, s) && call != Drop(TARGET)
    requires var a := MakeAct(s, call, turns(|calls|), TARGET);
      && a.after == t && Respectful(a)
      && NeverPartial(a.before, TARGET, CONTENT) && NeverPartial(a.after, TARGET, CONTENT)
    ensures next == log + [MakeAct(s, call, turns(|calls|), TARGET)]
    ensures Reached(next, turns, calls + [call], t)
  {
    assert |log| == |Calls(log)|;
    RunGrows(log, call, EMPTY, turns, TARGET, CONTENT);
    next := log + [MakeAct(s, call, turns(|calls|), TARGET)];
    CallsGrow(log, MakeAct(s, call, turns(|calls|), TARGET));
  }

  /** Calls that only look, in quiet turns. */
  lemma {:induction false} LookOn(log: seq<Act>, turns: nat -> Turn, calls: seq<Call>, s: State, looks: seq<Call>)
    returns (next: seq<Act>)
    requires Reached(log, turns, calls, s) && WellFormed(s) && NeverPartial(s, TARGET, CONTENT)
    requires forall k :: 0 <= k < |looks| ==> OnlyLooks(looks[k])
    requires forall k: nat :: |calls| <= k < |calls| + |looks| ==> turns(k).others.Rest?
    ensures Reached(next, turns, calls + looks, s)
    ensures |next| == |log| + |looks| && next[..|log|] == log
    ensures forall k :: |log| <= k < |next| ==> next[k].turn == turns(k) && next[k].before == s == next[k].after
    decreases |looks|
  {
    if looks == [] {
      assert calls + looks == calls;
      next := log;
    } else {
      LookIsHarmless(s, looks[0], turns(|calls|), TARGET, CONTENT);
      var one := Go(log, turns, calls, s, looks[0], s);
      assert |log| == |Calls(log)|;
      next := LookOn(one, turns, calls + [looks[0]], s, looks[1..]);
      assert calls + [looks[0]] + looks[1..] == calls + looks;
      assert next[..|log|] == one[..|log|];
    }
  }

  const PREPARATION: seq<Call> := [CheckParent, CheckParent, CheckParent, FindTarget]
  const APPROVAL: seq<Call> := [
    Sync, FinalStat, CloseTemp, Sync, CheckParent, Validate, CheckParent, Open(TEMP), Inspect, Read, Read]

  lemma Unrun(turns: nat -> Turn)
    ensures Reached([], turns, [], EMPTY)
  {
  }

  /** Both runs begin by creating the temporary file. */
  lemma Begin(turns: nat -> Turn) returns (log: seq<Act>)
    requires forall k: nat :: k < 5 ==> turns(k) == Quiet(Works)
    ensures Reached(log, turns, PREPARATION + [Create(TEMP)], With(map[TEMP := 20], []))
  {
    Unrun(turns);
    log := LookOn([], turns, [], EMPTY, PREPARATION);
    CreateIsHarmless(EMPTY, TEMP, turns(4), TARGET, CONTENT);
    assert [] + PREPARATION == PREPARATION;
    assert Unused({}, 20) == 20;
    assert EMPTY.names.Values + EMPTY.files.Keys == {};
    log := Go(log, turns, PREPARATION, EMPTY, Create(TEMP), With(map[TEMP := 20], []));
  }

  /** The new file gets its mode and its bytes. */
  lemma Filling(log: seq<Act>, turns: nat -> Turn, calls: seq<Call>) returns (next: seq<Act>)
    requires |calls| == 6 && Reached(log, turns, calls, With(map[TEMP := 20], []))
    requires turns(6) == turns(7) == Quiet(Works)
    ensures Reached(next, turns, calls + [Chmod] + [Append(CONTENT)], With(map[TEMP := 20], CONTENT))
  {
    var s, filled := With(map[TEMP := 20], []), With(map[TEMP := 20], CONTENT);
    FillIsHarmless(s, Chmod, turns(6), TARGET, CONTENT);
    next := Go(log, turns, calls, s, Chmod, s);
    FillIsHarmless(s, Append(CONTENT), turns(7), TARGET, CONTENT);
    assert [] + CONTENT[..Written(CONTENT, 1)] == CONTENT;
    assert s.files[20 := File(CONTENT, PRIVATE_MODE, 0)] == filled.files;
    next := Go(next, turns, calls + [Chmod], s, Append(CONTENT), filled);
  }

  /** The new file is filled, checked and linked; nobody interferes. */
  lemma Linking(log: seq<Act>, turns: nat -> Turn) returns (next: seq<Act>)
    requires Reached(log, turns, PREPARATION + [Create(TEMP)], With(map[TEMP := 20], []))
    requires forall k: nat :: k < 20 ==> turns(k) == Quiet(Works)
    ensures Reached(next, turns, Published(), With(map[TEMP := 20, TARGET := 20], CONTENT))
  {
    var calls := PREPARATION + [Create(TEMP)];
    next := LookOn(log, turns, calls, With(map[TEMP := 20], []), [FreshStat]);
    next := Filling(next, turns, calls + [FreshStat]);
    calls := calls + [FreshStat] + [Chmod] + [Append(CONTENT)];
    next := LookOn(next, turns, calls, With(map[TEMP := 20], CONTENT), APPROVAL);
    calls := calls + APPROVAL;
    LinkIsHarmless(With(map[TEMP := 20], CONTENT), TEMP, turns(19), TARGET, CONTENT);
    next := Go(next, turns, calls, With(map[TEMP := 20], CONTENT), Link(TEMP), With(map[TEMP := 20, TARGET := 20], CONTENT));
  }

  function Published(): seq<Call> {
    PREPARATION + [Create(TEMP)] + [FreshStat] + [Chmod] + [Append(CONTENT)] + APPROVAL + [Link(TEMP)]
  }

  /**
   The documented promise never to remove a name that was taken over does not hold: in this run
   others put their file under the temporary name between the link and the removal, which takes it away.
   */
  lemma TakenOverNameIsRemoved() returns (log: seq<Act>)
    ensures IsRun(log, EMPTY, Except(20, TakeOver()), TARGET, CONTENT)
    ensures Calls(log) == Published() + [Drop(TEMP)]
    ensures DropsForeign(log[20]) && RemovesForeign(log[20])
  {
    var turns := Except(20, TakeOver());
    log := Begin(turns);
    log := Linking(log, turns);
    var s := With(map[TEMP := 20, TARGET := 20], CONTENT);
    RemovalIsHarmless(s, Drop(TEMP), TakeOver(), TARGET, CONTENT);
    var a := MakeAct(s, Drop(TEMP), TakeOver(), TARGET);
    log := Go(log, turns, Published(), s, Drop(TEMP), a.after);
    assert |log| == |Calls(log)| == 21 && log[20] == a;
    assert TEMP in a.before.names && TEMP !in a.after.names && !Ours(a.before, TEMP);
  }

  lemma {:induction false} QuietIsUndisturbed(log: seq<Act>)
    requires forall k :: 0 <= k < |log| ==> log[k].turn.others.Rest?
    ensures !Disturbed(log)
  {
    if log != [] {
      QuietIsUndisturbed(log[..|log| - 1]);
    }
  }

  lemma {:induction false} StrandedAt(log: seq<Act>, k: nat)
    requires k < |log| && Strands(log[k])
    ensures Stranded(log)
  {
    if k < |log| - 1 {
      StrandedAt(log[..|log| - 1], k);
    }
  }

  lemma {:induction false} TurnsOfRun(log: seq<Act>, turns: nat -> Turn)
    requires IsRun(log, EMPTY, turns, TARGET, CONTENT)
    ensures forall k: nat :: k < |log| ==> log[k].turn == turns(k)
  {
    forall k: nat | k < |log| ensures log[k].turn == turns(k) {
      assert Lawful(log, k, EMPTY, turns, TARGET, CONTENT);
    }
  }

  /**
   A publication that leaves a name behind without anybody's interference: the first look at the
   fresh descriptor is refused, so the cleanup does not know the file and skips its name.
   */
  lemma RefusedLookStrands() returns (log: seq<Act>)
    ensures IsRun(log, EMPTY, Except(5, Quiet(Refused)), TARGET, CONTENT)
    ensures Calls(log) == PREPARATION + [Create(TEMP)] + [FreshStat, CleanClose, CleanSync, CloseParent]
    ensures !Disturbed(log) && Stranded(log)
    ensures Latest(log, EMPTY).names == map[TEMP := 20] != EMPTY.names
  {
    var turns := Except(5, Quiet(Refused));
    log := Begin(turns);
    forall k: nat ensures turns(k).others.Rest? {
      assert turns(k) == if k == 5 then Quiet(Refused) else Quiet(Works);
    }
    log := LookOn(log, turns, PREPARATION + [Create(TEMP)], With(map[TEMP := 20], []),
                  [FreshStat, CleanClose, CleanSync, CloseParent]);
    TurnsOfRun(log, turns);
    QuietIsUndisturbed(log);
    assert Calls(log)[5] == FreshStat;
    StrandedAt(log, 5);
    assert TEMP in Latest(log, EMPTY).names;
  }

  // ----- The run -----

  class Publication {
    const turns: nat -> Turn
    const target: Name
    const payload: seq<Byte>
    const euid: nat
    ghost const start: State

    var fs: State
    var clock: nat
    var temp: Name
    var identity: Option<Inode>
    var tempOpen: bool
    var tempExists: bool
    var targetPublished: bool
    var parentOpen: bool
    ghost var log: seq<Act>
    /** The names that this run gave to its file and did not take away again. */
    ghost var claimed: set<Name>

    constructor (turns: nat -> Turn, start: State, target: Name, payload: seq<Byte>, euid: nat)
      requires start.owned == None
      ensures Sound() && Fresh() && log == []
      ensures this.turns == turns && this.start == start && this.target == target
      ensures this.payload == payload && this.euid == euid
    {
      this.turns, this.target, this.payload, this.euid, this.start := turns, target, payload, euid, start;
      fs, clock, temp, identity := start, 0, 0, None;
      tempOpen, tempExists, targetPublished, parentOpen := false, false, false, false;
      log, claimed := [], {};
      new;
      assert NamesOfOurs(fs) == {};
      assert Foreign(fs) == start.names;
    }

    ghost predicate Recorded() reads this {
      && |log| == clock
      && fs == Latest(log, start)
      && IsRun(log, start, turns, target, payload)
    }

    /** Without interference the directory is the one at the start with the claimed names added. */
    ghost predicate Accounted() reads this {
      && NamesOfOurs(fs) <= claimed
      && (!Disturbed(log) ==> NamesOfOurs(fs) == claimed && Foreign(fs) == start.names)
    }

    ghost predicate Sound() reads this {
      && Recorded() && Accounted()
      && WellFormed(fs)
      && NeverPartial(fs, target, payload)
      && start.owned == None
      && (claimed != {} ==> parentOpen)
      && (identity.Some? ==> identity == fs.owned && HasFile(fs))
    }

    ghost predicate Fresh() reads this {
      && fs.owned == None && claimed == {} && identity == None
      && !tempOpen && !tempExists && !targetPublished
      && !Stranded(log)
    }

    /** The temporary file exists and the cleanup knows it. */
    ghost predicate Holding() reads this {
      && identity.Some? && tempExists && !targetPublished && temp != target
      && claimed == {temp} && !Stranded(log)
    }

    /** What the new file has to be when it is published. */
    function PrivateFile(): File {
      File(payload, PRIVATE_MODE, euid)
    }

    ghost predicate FaultFree() reads this {
      !Troubled(log, target, euid)
    }

    // ----- One system call -----

    method Step(call: Call) returns (fault: Fault, seen: State)
      requires Recorded() && call != Drop(target)
      requires var a := MakeAct(fs, call, turns(clock), target);
        Respectful(a) && NeverPartial(a.before, target, payload) && NeverPartial(a.after, target, payload)
      modifies this`fs, this`clock, this`log
      ensures Recorded()
      ensures var a := MakeAct(old(fs), call, turns(old(clock)), target);
        && log == old(log) + [a] && fs == a.after && seen == a.before && fault == a.turn.fault
        && (Disturbed(log) <==> Disturbed(old(log)) || !a.turn.others.Rest?)
        && (Stranded(log) <==> Stranded(old(log)) || Strands(a))
        && (Troubled(log, target, euid) <==> Troubled(old(log), target, euid) || Trouble(a, target, euid))
    {
      var turn := turns(clock);
      seen := Found(fs, call, turn);
      fault := turn.fault;
      RunGrows(log, call, start, turns, target, payload);
      log := log + [MakeAct(fs, call, turn, target)];
      assert log[..|log| - 1] == old(log);
      if fault != Refused {
        fs := Effect(seen, call, turn, target);
      } else {
        fs := seen;
      }
      clock := clock + 1;
    }

    /** A call that only looks; others may have acted before it. */
    method Look(call: Call) returns (fault: Fault, seen: State)
      requires Sound() && OnlyLooks(call)
      modifies this`fs, this`clock, this`log
      ensures Sound() && seen == fs
      ensures fs.owned == old(fs).owned && (HasFile(old(fs)) ==> HasFile(fs) && OurFile(fs) == OurFile(old(fs)))
      ensures NamesOfOurs(fs) <= NamesOfOurs(old(fs))
      ensures var a := Act(call, turns(old(clock)), seen, seen);
        && log == old(log) + [a] && fault == a.turn.fault
        && (Stranded(log) <==> Stranded(old(log)) || Strands(a))
        && (Troubled(log, target, euid) <==> Troubled(old(log), target, euid) || Trouble(a, target, euid))
      ensures Disturbed(old(log)) ==> Disturbed(log)
    {
      LookIsHarmless(fs, call, turns(clock), target, payload);
      InterferenceKeeps(fs, turns(clock).others);
      fault, seen := Step(call);
    }

    static function Raised(fault: Fault): (r: Option<Failure>)
      ensures r == None <==> fault == Works
    {
      match fault
      case Works => None
      case Refused => Some(Audit)
      case Breaks => Some(Signal)
    }

    predicate IsPlain(call: Call) {
      OnlyLooks(call) && !call.FreshStat? && !InCleanup(call)
    }

    /** A looking call of the main path; a fault becomes the failure to raise. */
    method Pass(call: Call) returns (raised: Option<Failure>, seen: State)
      requires Sound() && IsPlain(call)
      modifies this`fs, this`clock, this`log
      ensures Sound() && seen == fs
      ensures fs.owned == old(fs).owned && (HasFile(old(fs)) ==> HasFile(fs) && OurFile(fs) == OurFile(old(fs)))
      ensures log == old(log) + [Act(call, turns(old(clock)), seen, seen)]
      ensures Stranded(log) <==> Stranded(old(log))
      ensures raised.Some? ==> !FaultFree()
      ensures FaultFree() ==> !Troubled(old(log), target, euid)
      ensures FaultFree() && call.FindTarget? ==> target !in seen.names
      ensures old(Fresh()) ==> Fresh()
    {
      var fault;
      fault, seen := Look(call);
      raised := Raised(fault);
    }

    // ----- Before the file exists -----

    /** A plain call before the new file exists. */
    method LookFirst(call: Call) returns (raised: Option<Failure>)
      requires Sound() && Fresh() && IsPlain(call)
      modifies this`fs, this`clock, this`log
      ensures Sound() && Fresh()
      ensures raised.Some? ==> !FaultFree()
    {
      var seen;
      raised, seen := Pass(call);
    }

    /** The parent directory is looked at, opened, and looked at again. */
    method OpenParent() returns (raised: Option<Failure>)
      requires Sound() && Fresh()
      modifies this`fs, this`clock, this`log, this`parentOpen
      ensures Sound() && Fresh()
      ensures raised.None? ==> parentOpen
      ensures raised.Some? ==> !FaultFree()
    {
      raised := LookFirst(CheckParent);
      if raised.Some? { return; }
      raised := LookFirst(CheckParent);
      if raised.Some? { return; }
      parentOpen := true;
      raised := LookFirst(CheckParent);
    }

    /** Opens the parent and refuses an existing target. */
    method Prepare() returns (raised: Option<Failure>)
      requires Sound() && Fresh() && log == []
      modifies this`fs, this`clock, this`log, this`parentOpen
      ensures Sound() && Fresh()
      ensures raised.None? ==> parentOpen
      ensures raised.Some? ==> !FaultFree()
    {
      raised := OpenParent();
      if raised.Some? { return; }
      var seen;
      raised, seen := Pass(FindTarget);
      if raised.None? && target in seen.names {
        raised := Some(Audit);
      }
    }

    /** One exclusive creation; the name may turn out to be taken. */
    method TryCreate(candidate: Name) returns (fault: Fault, taken: bool)
      requires Sound() && Fresh() && parentOpen && candidate != target
      modifies this`fs, this`clock, this`log, this`claimed, this`temp
      ensures Sound()
      ensures fault == Refused || taken ==> Fresh() && !FaultFree()
      ensures !(fault == Refused || taken) ==> 
        && claimed == {temp} && temp == candidate && HasFile(fs) && OurFile(fs).content == []
        && (Stranded(log) <==> fault == Breaks)
      ensures fault != Works ==> !FaultFree()
      ensures FaultFree() ==> !Troubled(old(log), target, euid) && OurFile(fs).uid == euid
    {
      CreateIsHarmless(fs, candidate, turns(clock), target, payload);
      var seen;
      fault, seen := Step(Create(candidate));
      taken := candidate in seen.names;
      if fault != Refused && !taken {
        claimed := {candidate};
        temp := candidate;
      }
    }

    method CreateTemp() returns (raised: Option<Failure>)
      requires Sound() && Fresh() && parentOpen
      requires forall k :: turns(k).token != target
      modifies this`fs, this`clock, this`log, this`claimed, this`temp, this`identity, this`tempOpen, this`tempExists
      ensures Sound()
      ensures raised.None? ==> Holding() && tempOpen && OurFile(fs).content == []
      ensures raised.None? && FaultFree() ==> OurFile(fs).uid == euid
      ensures raised.Some? ==> !FaultFree() && identity == None && claimed <= {temp}
      ensures raised.Some? ==> (Stranded(log) <==> claimed != {})
    {
      for attempt := 0 to NAME_ATTEMPTS
        invariant Sound() && Fresh()
        invariant attempt > 0 ==> !FaultFree()
      {
        var fault, taken := TryCreate(turns(clock).token);
        if fault != Works { return Raised(fault); }
        if !taken {
          raised := Identify();
          return;
        }
      }
      raised := Some(Audit);
    }

    /** The fresh descriptor is asked for the identity of the new file. */
    method Identify() returns (raised: Option<Failure>)
      requires Sound() && parentOpen && HasFile(fs) && temp != target
      requires identity == None && !targetPublished && claimed == {temp} && !Stranded(log)
      modifies this`fs, this`clock, this`log, this`identity, this`tempOpen, this`tempExists
      ensures Sound() && HasFile(fs) && OurFile(fs) == old(OurFile(fs))
      ensures raised.None? ==> Holding() && tempOpen
      ensures raised.Some? ==> identity == None && Stranded(log) && !FaultFree()
      ensures raised.None? && FaultFree() ==> !Troubled(old(log), target, euid)
    {
      tempOpen, tempExists := true, true;
      var fault, seen := Look(FreshStat);
      if fault != Works { return Raised(fault); }
      identity := seen.owned;
      raised := None;
    }

    // ----- Filling the file -----

    /** A call that fills the file while only the temporary name can stand for it. */
    method Fill(call: Call) returns (fault: Fault)
      requires Sound() && Holding() && (call.Chmod? || call.Append?)
      modifies this`fs, this`clock, this`log
      ensures Sound() && Holding()
      ensures var turn := turns(old(clock));
        && fault == turn.fault
        && OurFile(fs) == (
          if fault == Refused then old(OurFile(fs))
          else if call.Chmod? then old(OurFile(fs)).(mode := PRIVATE_MODE)
          else old(OurFile(fs)).(content := old(OurFile(fs)).content + call.rest[..Written(call.rest, turn.amount)]))
        && (fault != Works || (call.Append? && turn.amount <= 0) ==> !FaultFree())
      ensures FaultFree() ==> !Troubled(old(log), target, euid)
    {
      assert target !in NamesOfOurs(fs);
      InterferenceKeeps(fs, turns(clock).others);
      FillIsHarmless(fs, call, turns(clock), target, payload);
      var seen;
      fault, seen := Step(call);
    }

    method WritePayload() returns (raised: Option<Failure>)
      requires Sound() && Holding() && OurFile(fs).content == []
      modifies this`fs, this`clock, this`log
      ensures Sound() && Holding() && OurFile(fs).uid == old(OurFile(fs)).uid
      ensures raised.None? ==> Complete(OurFile(fs), payload)
      ensures raised.Some? ==> !FaultFree()
      ensures FaultFree() ==> !Troubled(old(log), target, euid)
    {
      var fault := Fill(Chmod);
      if fault != Works { return Raised(fault); }
      var offset := 0;
      while offset < |payload|
        invariant offset <= |payload| && Sound() && Holding()
        invariant OurFile(fs) == File(payload[..offset], PRIVATE_MODE, old(OurFile(fs)).uid)
        invariant FaultFree() ==> !Troubled(old(log), target, euid)
      {
        var rest := payload[offset..];
        var written := Written(rest, turns(clock).amount);
        fault := Fill(Append(rest));
        if fault != Works { return Raised(fault); }
        if written == 0 { return Some(Audit); }
        assert payload[..offset] + rest[..written] == payload[..offset + written];
        offset := offset + written;
      }
      raised := None;
    }

    method CheckMetadata() returns (raised: Option<Failure>)
      requires Sound() && Holding() && OurFile(fs).mode == PRIVATE_MODE
      modifies this`fs, this`clock, this`log
      ensures Sound() && Holding() && OurFile(fs) == old(OurFile(fs))
      ensures raised.None? ==> OurFile(fs).uid == euid
      ensures raised.Some? && old(OurFile(fs)).uid == euid ==> !FaultFree()
      ensures FaultFree() ==> !Troubled(old(log), target, euid)
    {
      var seen;
      raised, seen := Pass(FinalStat);
      if raised.Some? { return; }
      if OurFile(seen).mode != PRIVATE_MODE || OurFile(seen).uid != euid || |NamesOfOurs(seen)| != 1 {
        if Disturbed(log) { DisturbanceIsTrouble(log, target, euid); }
        return Some(Audit);
      }
    }

    /** A plain call while the new file is held. */
    method Hold(call: Call) returns (raised: Option<Failure>)
      requires Sound() && Holding() && IsPlain(call)
      modifies this`fs, this`clock, this`log
      ensures Sound() && Holding() && OurFile(fs) == old(OurFile(fs))
      ensures raised.Some? ==> !FaultFree()
      ensures FaultFree() ==> !Troubled(old(log), target, euid)
    {
      var seen;
      raised, seen := Pass(call);
    }

    method WriteAndCheck() returns (raised: Option<Failure>)
      requires Sound() && Holding() && OurFile(fs).content == []
      modifies this`fs, this`clock, this`log
      ensures Sound() && Holding()
      ensures raised.None? ==> OurFile(fs) == PrivateFile()
      ensures raised.Some? && old(OurFile(fs)).uid == euid ==> !FaultFree()
      ensures FaultFree() ==> !Troubled(old(log), target, euid)
    {
      raised := WritePayload();
      if raised.Some? { return; }
      raised := Hold(Sync);
      if raised.Some? { return; }
      raised := CheckMetadata();
    }

    /** The whole payload is in the file, synced, and its metadata are those of a private file. */
    method FillTemp() returns (raised: Option<Failure>)
      requires Sound() && Holding() && tempOpen && OurFile(fs).content == []
      modifies this`fs, this`clock, this`log, this`tempOpen
      ensures Sound() && Holding()
      ensures raised.None? ==> OurFile(fs) == PrivateFile() && !tempOpen
      ensures raised.Some? && old(OurFile(fs)).uid == euid ==> !FaultFree()
      ensures FaultFree() ==> !Troubled(old(log), target, euid)
    {
      raised := WriteAndCheck();
      if raised.Some? { return; }
      raised := Hold(CloseTemp);
      if raised.Some? { return; }
      tempOpen := false;
      raised := Hold(Sync);
    }

    // ----- Reading the file back -----

    /** The new file has one name, which is this one, and its metadata and bytes are as they should be. */
    ghost predicate Witnessed(at: nat, name: Name, content: seq<Byte>)
      reads this
    {
      && at < |log| && log[at].call.Inspect?
      && NamesOfOurs(log[at].before) == {name}
      && HasFile(log[at].before)
      && OurFile(log[at].before) == File(content, PRIVATE_MODE, euid)
    }

    /** Only looking calls were made since. */
    ghost predicate OnlyReadSince(from: nat)
      reads this
    {
      forall k :: from < k < |log| ==> log[k].call.Read?
    }

    /** One read at the offset already reached; an empty chunk means the end of the file. */
    method ReadChunk(offset: nat, limit: nat, ghost at: nat, ghost name: Name) returns (raised: Option<Failure>, chunk: seq<Byte>)
      requires Sound() && identity.Some? && Witnessed(at, name, OurFile(fs).content) && OnlyReadSince(at)
      requires offset <= |OurFile(fs).content| && 1 <= limit
      modifies this`fs, this`clock, this`log
      ensures Sound() && OurFile(fs) == old(OurFile(fs)) && identity == fs.owned
      ensures Witnessed(at, name, OurFile(fs).content) && OnlyReadSince(at)
      ensures raised.Some? ==> !FaultFree()
      ensures FaultFree() ==> !Troubled(old(log), target, euid)
      ensures Stranded(log) <==> Stranded(old(log))
      ensures chunk <= OurFile(fs).content[offset..] && |chunk| <= limit
      ensures raised.None? && chunk == [] ==> offset == |OurFile(fs).content|
    {
      chunk := [];
      var amount := turns(clock).amount;
      var seen;
      raised, seen := Pass(Read);
      if raised.Some? { return; }
      var rest := OurFile(seen).content[offset..];
      chunk := rest[..Written(rest, if amount < 1 then 1 else if amount < limit then amount else limit)];
    }

    /** Reads the open file chunk by chunk, at most one byte more than expected. */
    method ReadBack(ghost at: nat, ghost name: Name) returns (raised: Option<Failure>, observed: seq<Byte>)
      requires Sound() && identity.Some? && Witnessed(at, name, OurFile(fs).content) && OnlyReadSince(at)
      modifies this`fs, this`clock, this`log
      ensures Sound() && OurFile(fs) == old(OurFile(fs)) && identity == fs.owned
      ensures Witnessed(at, name, OurFile(fs).content) && OnlyReadSince(at)
      ensures raised.None? ==> (observed == payload <==> OurFile(fs).content == payload)
      ensures raised.Some? ==> !FaultFree()
      ensures FaultFree() ==> !Troubled(old(log), target, euid)
      ensures Stranded(log) <==> Stranded(old(log))
    {
      observed := [];
      while |observed| <= |payload|
        invariant Sound() && identity.Some? && OurFile(fs) == old(OurFile(fs))
        invariant Witnessed(at, name, OurFile(fs).content) && OnlyReadSince(at)
        invariant observed <= OurFile(fs).content
        invariant FaultFree() ==> !Troubled(old(log), target, euid)
        invariant Stranded(log) <==> Stranded(old(log))
        decreases |payload| + 1 - |observed|
      {
        var missing := |payload| + 1 - |observed|;
        var chunk;
        raised, chunk := ReadChunk(|observed|, if missing < READ_CHUNK then missing else READ_CHUNK, at, name);
        if raised.Some? { return; }
        if chunk == [] { return None, observed; }
        assert observed + chunk <= OurFile(fs).content;
        observed := observed + chunk;
      }
      raised := None;
    }

    method InspectPrivate(name: Name) returns (raised: Option<Failure>, ghost at: nat)
      requires Sound() && identity.Some? && claimed == {name}
      modifies this`fs, this`clock, this`log
      ensures Sound() && OurFile(fs) == old(OurFile(fs)) && identity == fs.owned
      ensures Stranded(log) <==> Stranded(old(log))
      ensures raised.None? ==> Witnessed(at, name, payload) && OnlyReadSince(at)
      ensures raised.Some? && old(OurFile(fs)) == PrivateFile() ==> !FaultFree()
      ensures FaultFree() ==> !Troubled(old(log), target, euid)
    {
      at := 0;
      var seen;
      raised, seen := Pass(Open(name));
      if raised.Some? { return; }
      var reached := if name in seen.names then Some(seen.names[name]) else None;
      if reached != identity {
        if Disturbed(log) { DisturbanceIsTrouble(log, target, euid); }
        return Some(Audit), at;
      }
      raised, at := InspectOpened(name);
    }

    method InspectOpened(name: Name) returns (raised: Option<Failure>, ghost at: nat)
      requires Sound() && identity.Some? && claimed == {name}
      modifies this`fs, this`clock, this`log
      ensures Sound() && OurFile(fs) == old(OurFile(fs)) && identity == fs.owned
      ensures Stranded(log) <==> Stranded(old(log))
      ensures raised.None? ==> Witnessed(at, name, payload) && OnlyReadSince(at)
      ensures raised.Some? && old(OurFile(fs)) == PrivateFile() ==> !FaultFree()
      ensures FaultFree() ==> !Troubled(old(log), target, euid)
    {
      at := |log|;
      var seen;
      raised, seen := Pass(Inspect);
      if raised.Some? { return; }
      if OurFile(seen).mode != PRIVATE_MODE || OurFile(seen).uid != euid || |NamesOfOurs(seen)| != 1 {
        if Disturbed(log) { DisturbanceIsTrouble(log, target, euid); }
        return Some(Audit), at;
      }
      OneOf(NamesOfOurs(seen), name);
      var observed;
      raised, observed := ReadBack(at, name);
      if raised.None? && observed != payload {
        raised := Some(Audit);
      }
    }

    lemma OneOf(s: set<Name>, n: Name)
      requires s <= {n} && |s| == 1
      ensures s == {n}
    {
      assert s - {n} == {};
    }

    // ----- Publication -----

    /** The target has the new file; the temporary name is gone. */
    ghost predicate Linked() reads this {
      && identity.Some? && !tempExists && targetPublished && temp != target
      && claimed == {target} && !Stranded(log)
    }

    /**
     What the cleanup can rely on: a name is lost to it when it does not know the file or was not
     told of the link, and without interference that happens exactly when an act stranded a name.
     */
    ghost predicate Lost() reads this {
      claimed != {} && (identity.None? || (target in claimed && !targetPublished))
    }

    ghost predicate Recoverable() reads this {
      && claimed <= {temp, target}
      && (identity.Some? ==> temp != target && (temp in claimed ==> tempExists))
      && (!Disturbed(log) ==> (Stranded(log) <==> Lost()))
    }

    method LinkTarget() returns (raised: Option<Failure>)
      requires Sound() && Holding() && OurFile(fs) == PrivateFile()
      modifies this`fs, this`clock, this`log, this`claimed, this`targetPublished
      ensures Sound() && Recoverable() && identity.Some? && tempExists && OurFile(fs) == PrivateFile()
      ensures raised.None? ==> targetPublished && claimed == {temp, target} && !Stranded(log)
      ensures FaultFree() ==> !Troubled(old(log), target, euid)
      ensures raised.Some? ==> !FaultFree()
    {
      LinkIsHarmless(fs, temp, turns(clock), target, payload);
      var fault, seen := Step(Link(temp));
      if fault != Refused && target !in seen.names && temp in seen.names {
        claimed := claimed + {target};
        targetPublished := fault == Works;
        return Raised(fault);
      }
      if temp !in seen.names && Disturbed(log) { DisturbanceIsTrouble(log, target, euid); }
      raised := if fault == Works then Some(Audit) else Raised(fault);
    }

    /** Takes a name away; the cleanup does so only after finding the new file there. */
    method Remove(call: Call) returns (fault: Fault, present: bool)
      requires Sound() && identity.Some?
      requires (call.Drop? && call.name in claimed && call.name != target) || (call.CleanRemove? && Ours(fs, call.name))
      modifies this`fs, this`clock, this`log, this`claimed
      ensures Sound() && OurFile(fs) == old(OurFile(fs)) && identity == fs.owned
      ensures claimed == old(claimed) - (if fault == Refused then {} else {call.name})
      ensures fault != Works ==> !FaultFree()
      ensures !present ==> call.Drop? && !FaultFree()
      ensures Disturbed(old(log)) ==> Disturbed(log)
      ensures FaultFree() ==> !Troubled(old(log), target, euid)
      ensures Stranded(log) <==> Stranded(old(log)) || (call.CleanRemove? && fault != Works && (fault == Refused || NamesOfOurs(fs) != {}))
    {
      RemovalIsHarmless(fs, call, turns(clock), target, payload);
      var seen;
      fault, seen := Step(call);
      present := call.name in seen.names;
      if fault != Refused {
        claimed := claimed - {call.name};
      }
      if !present && Disturbed(log) { DisturbanceIsTrouble(log, target, euid); }
    }

    /** The temporary name is removed, whatever it stands for by now. */
    method DropTemp() returns (raised: Option<Failure>)
      requires Sound() && identity.Some? && OurFile(fs) == PrivateFile() && !Stranded(log)
      requires tempExists && targetPublished && claimed == {temp, target} && temp != target
      modifies this`fs, this`clock, this`log, this`claimed, this`tempExists
      ensures Sound() && OurFile(fs) == PrivateFile() && identity.Some?
      ensures !Stranded(log) && claimed <= {temp, target} && (temp in claimed ==> tempExists)
      ensures raised.None? ==> Linked()
      ensures raised.Some? ==> !FaultFree()
      ensures FaultFree() ==> !Troubled(old(log), target, euid)
    {
      var fault, present := Remove(Drop(temp));
      if fault != Works { return Raised(fault); }
      if !present { return Some(Audit); }
      tempExists := false;
      raised := None;
    }

    /** The complete temporary file is validated and read back. */
    method Approve() returns (raised: Option<Failure>)
      requires Sound() && Holding() && OurFile(fs) == PrivateFile()
      modifies this`fs, this`clock, this`log
      ensures Sound() && Holding() && OurFile(fs) == PrivateFile()
      ensures raised.Some? ==> !FaultFree()
      ensures FaultFree() ==> !Troubled(old(log), target, euid)
    {
      raised := Hold(CheckParent);
      if raised.Some? { return; }
      raised := Hold(Validate);
      if raised.Some? { return; }
      raised := Hold(CheckParent);
      if raised.Some? { return; }
      ghost var at;
      raised, at := InspectPrivate(temp);
    }

    method Commit() returns (raised: Option<Failure>, ghost at: nat)
      requires Sound() && Holding() && OurFile(fs) == PrivateFile()
      modifies this`fs, this`clock, this`log, this`claimed, this`targetPublished, this`tempExists
      ensures Sound() && Recoverable()
      ensures raised.None? ==> Linked() && Witnessed(at, target, payload) && OnlyReadSince(at)
      ensures raised.Some? ==> !FaultFree()
    {
      at := 0;
      raised := Approve();
      if raised.Some? { return; }
      raised := LinkTarget();
      if raised.Some? { return; }
      raised := DropTemp();
      if raised.Some? { return; }
      raised, at := Confirm();
    }

    /** A plain call while the target has the file. */
    method HoldLinked(call: Call) returns (raised: Option<Failure>)
      requires Sound() && Linked() && OurFile(fs) == PrivateFile() && IsPlain(call)
      modifies this`fs, this`clock, this`log
      ensures Sound() && Linked() && OurFile(fs) == PrivateFile()
      ensures raised.Some? ==> !FaultFree()
      ensures FaultFree() ==> !Troubled(old(log), target, euid)
    {
      var seen;
      raised, seen := Pass(call);
    }

    /** The published file is validated and read back under its final name. */
    method Confirm() returns (raised: Option<Failure>, ghost at: nat)
      requires Sound() && Linked() && OurFile(fs) == PrivateFile()
      modifies this`fs, this`clock, this`log
      ensures Sound() && Linked()
      ensures raised.None? ==> Witnessed(at, target, payload) && OnlyReadSince(at)
      ensures raised.Some? ==> !FaultFree()
      ensures FaultFree() ==> !Troubled(old(log), target, euid)
    {
      at := 0;
      raised := HoldLinked(Sync);
      if raised.Some? { return; }
      raised := HoldLinked(CheckParent);
      if raised.Some? { return; }
      raised := HoldLinked(Validate);
      if raised.Some? { return; }
      raised, at := InspectPrivate(target);
    }

    // ----- Cleanup -----

    /** Without interference the new file keeps a name exactly when some act stranded it. */
    ghost predicate Settled() reads this {
      !Disturbed(log) ==> (Stranded(log) <==> claimed != {})
    }

    /** A call of the cleanup other than those that look for a name. */
    method CleanCall(call: Call) returns (fault: Fault)
      requires Sound() && (call.CleanClose? || call.CleanSync? || call.CloseParent?)
      modifies this`fs, this`clock, this`log
      ensures Sound() && fs.owned == old(fs).owned
      ensures !Disturbed(log) ==> (Stranded(log) <==> Stranded(old(log)) || (fault == Breaks && claimed != {}))
      ensures Disturbed(old(log)) ==> Disturbed(log)
      ensures Troubled(old(log), target, euid) || fault != Works ==> !FaultFree()
      ensures log == old(log) + [Act(call, turns(old(clock)), fs, fs)]
    {
      LookIsHarmless(fs, call, turns(clock), target, payload);
      InterferenceKeeps(fs, turns(clock).others);
      var seen;
      fault, seen := Step(call);
    }

    /** Takes a name away if it still stands for the new file. */
    method UnlinkOurs(name: Name) returns (raised: Option<Failure>)
      requires Sound()
      modifies this`fs, this`clock, this`log, this`claimed
      ensures Sound()
      ensures claimed == old(claimed) || claimed == old(claimed) - {name}
      ensures identity == None ==> raised == None && log == old(log) && claimed == old(claimed)
      ensures identity.Some? && !Disturbed(log) ==>
        (Stranded(log) <==> Stranded(old(log)) || name in claimed || (raised.Some? && claimed != {}))
      ensures Disturbed(old(log)) ==> Disturbed(log)
      ensures Troubled(old(log), target, euid) ==> !FaultFree()
    {
      if identity == None { return None; }
      var fault, seen := Look(CleanStat(name));
      if fault == Breaks { return Some(Signal); }
      if fault == Refused || name !in seen.names || Some(seen.names[name]) != identity { return None; }
      var present;
      fault, present := Remove(CleanRemove(name));
      raised := match fault case Works => None case Refused => Some(Os) case Breaks => Some(Signal);
    }

    method UnlinkNames() returns (raised: Option<Failure>)
      requires Sound() && Recoverable()
      modifies this`fs, this`clock, this`log, this`claimed
      ensures Sound() && Settled()
      ensures Troubled(old(log), target, euid) ==> !FaultFree()
    {
      raised := None;
      if targetPublished {
        raised := UnlinkOurs(target);
      }
      assert claimed != {} <==> temp in claimed || target in claimed;
      if raised.None? && tempExists {
        raised := UnlinkOurs(temp);
      }
      assert claimed != {} <==> temp in claimed || target in claimed;
    }

    method CleanUp() returns (raised: Option<Failure>)
      requires Sound() && Recoverable()
      modifies this`fs, this`clock, this`log, this`claimed, this`tempOpen
      ensures Sound() && Settled()
      ensures Troubled(old(log), target, euid) ==> !FaultFree()
    {
      if tempOpen {
        var fault := CleanCall(CleanClose);
        if fault == Breaks { return Some(Signal); }
        tempOpen := false;
      }
      if !parentOpen { return None; }
      raised := UnlinkNames();
      if raised.Some? { return; }
      var fault := CleanCall(CleanSync);
      raised := if fault == Breaks then Some(Signal) else None;
    }

    // ----- The whole publication -----

    method Attempt() returns (raised: Option<Failure>, ghost at: nat)
      requires Sound() && Fresh() && log == []
      requires forall k :: turns(k).token != target
      modifies this`fs, this`clock, this`log, this`claimed, this`temp, this`identity
      modifies this`tempOpen, this`tempExists, this`targetPublished, this`parentOpen
      ensures Sound() && Recoverable()
      ensures raised.None? ==> Linked() && Witnessed(at, target, payload) && OnlyReadSince(at) && !tempOpen
      ensures raised.Some? ==> !FaultFree()
    {
      at := 0;
      raised := Prepare();
      if raised.Some? { return; }
      raised := CreateTemp();
      if raised.Some? { return; }
      raised := FillTemp();
      if raised.Some? { return; }
      raised, at := Commit();
    }

    /** The descriptors are closed however the publication ended. */
    method Finish() returns (raised: Option<Failure>)
      requires Sound()
      modifies this`fs, this`clock, this`log
      ensures Sound()
      ensures old(Settled()) || (raised.Some? && !old(Stranded(log))) ==> Settled()
      ensures Troubled(old(log), target, euid) || raised.Some? ==> !FaultFree()
      ensures |old(log)| <= |log| && log[..|old(log)|] == old(log)
      ensures forall k :: |old(log)| <= k < |log| ==> InCleanup(log[k].call) && !log[k].call.CleanRemove?
    {
      if tempOpen {
        var fault := CleanCall(CleanClose);
        if fault == Breaks { return Some(Signal); }
      }
      if parentOpen {
        var fault := CleanCall(CloseParent);
        if fault == Breaks { return Some(Signal); }
      }
      raised := None;
    }

    method Publish() returns (raised: Option<Failure>, ghost at: nat)
      requires Sound() && Fresh() && log == []
      requires forall k :: turns(k).token != target
      modifies this
      ensures IsRun(log, start, turns, target, payload)
      ensures raised.None? ==>
        && Witnessed(at, target, payload)
        && (forall k :: at < k < |log| ==> OnlyLooks(log[k].call))
      ensures raised.None? && !Disturbed(log) ==>
        target !in start.names && fs.owned.Some? && fs.names == start.names[target := fs.owned.value]
      ensures raised.Some? && !Disturbed(log) ==> (fs.names == start.names <==> !Stranded(log))
      ensures raised.Some? ==> Troubled(log, target, euid)
    {
      raised, at := Attempt();
      if raised.Some? {
        var broken := CleanUp();
        if broken.Some? { raised := broken; }
      }
      var broken := Finish();
      if broken.Some? { raised := broken; }
      if !Disturbed(log) {
        RestoredWithoutOurs(fs, start);
        if raised.None? {
          AddedOurs(fs, start, target);
        }
      }
    }
  }
}
