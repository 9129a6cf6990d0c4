/** The backing array behind a mechanism's command words
    (pkg/apis/fencing/v1alpha1/mechanism.go:105-152).

    getContainerCommand appends to the slice stored in the mechanism.  By the
    Go language specification ("Appending to and copying slices") an append
    writes into the spare capacity when there is some, and moves to a new array
    otherwise.  This module says what such appends leave behind. */
module CommandSlices {
  import opened Options
  import opened Mechanisms

  /** A slice: the first len cells of its backing array, whose length is the capacity. */
  datatype Slice = Slice(cells: array<string>, len: nat)

  predicate Ok(s: Slice) {
    s.len <= s.cells.Length
  }

  /** The words a reader of the slice sees. */
  ghost function Words(s: Slice): seq<string>
    requires Ok(s)
    reads s.cells
  {
    s.cells[..s.len]
  }

  function Min(a: nat, b: nat): nat {
    if a < b then a else b
  }

  /** append(s, w); growth is the extra capacity of a new array, which Go leaves open. */
  method Append(s: Slice, w: string, growth: nat) returns (r: Slice)
    requires Ok(s)
    modifies s.cells
    ensures Ok(r) && Words(r) == old(Words(s)) + [w]
    ensures s.len < s.cells.Length ==> r.cells == s.cells && s.cells[s.len] == w
    ensures s.len == s.cells.Length ==> fresh(r.cells)
    ensures forall i :: 0 <= i < s.cells.Length && i != s.len ==> s.cells[i] == old(s.cells[i])
  {
    if s.len < s.cells.Length {
      s.cells[s.len] := w;
      return Slice(s.cells, s.len + 1);
    }
    var cells := new string[s.len + 1 + growth](_ => "");
    forall i | 0 <= i < s.len {
      cells[i] := s.cells[i];
    }
    cells[s.len] := w;
    return Slice(cells, s.len + 1);
  }

  /** What the spare cells hold after words were appended from the start of them. */
  function Spill(spare: seq<string>, words: seq<string>): (r: seq<string>)
    ensures |r| == |spare|
  {
    var k := Min(|words|, |spare|);
    words[..k] + spare[k..]
  }

  function SpillAll(spare: seq<string>, commands: seq<seq<string>>): (r: seq<string>)
    ensures |r| == |spare|
    decreases |commands|
  {
    if commands == [] then spare
    else Spill(SpillAll(spare, commands[..|commands| - 1]), commands[|commands| - 1])
  }

  /** r is what remains after the words were appended to base, whose readable
      and spare cells held read and spare before. */
  ghost predicate Appended(base: Slice, r: Slice, read: seq<string>, spare: seq<string>, words: seq<string>)
    reads base.cells, r.cells
  {
    && |read| == base.len && base.len + |spare| == base.cells.Length
    && Ok(r) && r.len == base.len + |words|
    && Words(r) == read + words
    && base.cells[..base.len] == read
    && base.cells[base.len..] == Spill(spare, words)
    && (r.cells == base.cells <==> |words| <= |spare|)
  }

  method AppendNext(base: Slice, r: Slice, w: string, growth: nat,
                    ghost read: seq<string>, ghost spare: seq<string>, ghost words: seq<string>)
    returns (next: Slice)
    requires Appended(base, r, read, spare, words)
    modifies r.cells
    ensures Appended(base, next, read, spare, words + [w])
    ensures next.cells == r.cells || fresh(next.cells)
  {
    ghost var was := base.cells[..];
    next := Append(r, w, growth);
    if |words| < |spare| {
      assert base.cells[..] == was[base.len + |words| := w];
    } else {
      assert base.cells[..] == was;
    }
  }

  /** The state after some commands were built from one slice, in call order,
      seen through one of them: a command that moved to its own array keeps its
      words, and one that shares cells reads what the calls together left there. */
  ghost predicate Built(base: Slice, r: Slice, read: seq<string>, pool: seq<string>, command: seq<string>)
    reads base.cells, r.cells
  {
    && Ok(r) && r.len == base.len + |command|
    && (r.cells == base.cells <==> |command| <= |pool|)
    && Words(r) == read + if |command| <= |pool| then pool[..|command|] else command
  }

  // ------------------------------------- the commands of one mechanism

  /** One call of getContainerCommand: the order its static configuration is
      ranged over, and the target. */
  datatype Call = Call(order: seq<string>, target: string)

  ghost predicate CallOf(m: Mechanism, call: Call) {
    Enumerates(call.order, m.config)
  }

  /** The words appended for dynamic fields: on a field without a value, its
      option is already there when the call fails. */
  function DynamicWords(dcs: seq<DynamicConfig>, target: string): seq<string> {
    if dcs == [] then []
    else
      var value := DynamicValue(dcs[0], target);
      if value.None? then ["--" + dcs[0].field]
      else ["--" + dcs[0].field, value.value] + DynamicWords(dcs[1..], target)
  }

  /** All words a call appends, whether it fails or not. */
  function CallWords(m: Mechanism, call: Call): seq<string>
    requires forall k :: k in call.order ==> k in m.config
  {
    CliOptions(Static(call.order, m.config)) + DynamicWords(m.dynamicConfig, call.target)
    + if Resolvable(m.dynamicConfig, call.target) then CliTail(m.passTargetAs, call.target) else []
  }

  lemma {:induction false} DynamicWordsAre(dcs: seq<DynamicConfig>, target: string, i: nat)
    requires i <= |dcs| && Resolvable(dcs[..i], target)
    ensures i == |dcs| ==> DynamicWords(dcs, target) == CliOptions(Dynamic(dcs[..i], target))
    ensures i < |dcs| && DynamicValue(dcs[i], target).None? ==>
              DynamicWords(dcs, target) == CliOptions(Dynamic(dcs[..i], target)) + ["--" + dcs[i].field]
    decreases i
  {
    if i > 0 {
      assert dcs[..i][0] == dcs[0];
      assert dcs[1..][..i - 1] == dcs[..i][1..];
      DynamicWordsAre(dcs[1..], target, i - 1);
      assert Dynamic(dcs[..i], target)[1..] == Dynamic(dcs[..i][1..], target);
    }
  }

  /** What a call that succeeds appends is what the command on values ends with. */
  lemma CallWordsAre(m: Mechanism, call: Call)
    requires CallOf(m, call) && Resolvable(m.dynamicConfig, call.target)
    ensures m.container.command + CallWords(m, call) == CliCommand(m, call.order, call.target)
  {
    var dcs := m.dynamicConfig;
    DynamicWordsAre(dcs, call.target, |dcs|);
    assert dcs[..|dcs|] == dcs;
    CliOptionsConcat(Static(call.order, m.config), Dynamic(dcs, call.target));
  }

  method AppendOption(base: Slice, r: Slice, name: string, value: string, growth: nat,
                      ghost read: seq<string>, ghost spare: seq<string>, ghost words: seq<string>)
    returns (next: Slice)
    requires Appended(base, r, read, spare, words)
    modifies r.cells
    ensures Appended(base, next, read, spare, words + ["--" + name, value])
    ensures next.cells == r.cells || fresh(next.cells)
  {
    next := AppendNext(base, r, "--" + name, growth, read, spare, words);
    next := AppendNext(base, next, value, growth, read, spare, words + ["--" + name]);
    assert words + ["--" + name] + [value] == words + ["--" + name, value];
  }

  method AppendStatic(m: Mechanism, base: Slice, order: seq<string>, growth: nat,
                      ghost read: seq<string>, ghost spare: seq<string>)
    returns (r: Slice)
    requires Appended(base, base, read, spare, []) && forall k :: k in order ==> k in m.config
    modifies base.cells
    ensures Appended(base, r, read, spare, CliOptions(Static(order, m.config)))
    ensures r.cells == base.cells || fresh(r.cells)
  {
    hide Appended;
    r := base;
    for i := 0 to |order|
      invariant Appended(base, r, read, spare, CliOptions(Static(order[..i], m.config)))
      invariant r.cells == base.cells || fresh(r.cells)
    {
      assert order[i] in order;
      var next := Binding(order[i], m.config[order[i]]);
      CliOptionsSnoc(Static(order[..i], m.config), next);
      assert Static(order[..i + 1], m.config) == Static(order[..i], m.config) + [next];
      r := AppendOption(base, r, order[i], m.config[order[i]], growth, read, spare,
                        CliOptions(Static(order[..i], m.config)));
    }
    assert order[..|order|] == order;
  }

  method AppendDynamic(dcs: seq<DynamicConfig>, base: Slice, s: Slice, target: string, growth: nat,
                       ghost read: seq<string>, ghost spare: seq<string>, ghost words: seq<string>)
    returns (ok: bool, r: Slice)
    requires Appended(base, s, read, spare, words)
    modifies s.cells
    ensures ok <==> Resolvable(dcs, target)
    ensures Appended(base, r, read, spare, words + DynamicWords(dcs, target))
    ensures r.cells == s.cells || fresh(r.cells)
  {
    hide Appended;
    r := s;
    assert words + [] == words;
    for i := 0 to |dcs|
      invariant Resolvable(dcs[..i], target)
      invariant Appended(base, r, read, spare, words + CliOptions(Dynamic(dcs[..i], target)))
      invariant r.cells == s.cells || fresh(r.cells)
    {
      var value := DynamicValue(dcs[i], target);
      ghost var before := Dynamic(dcs[..i], target);
      if value.None? {
        DynamicWordsAre(dcs, target, i);
        r := AppendNext(base, r, "--" + dcs[i].field, growth, read, spare, words + CliOptions(before));
        assert words + CliOptions(before) + ["--" + dcs[i].field] == words + DynamicWords(dcs, target);
        return false, r;
      }
      CliOptionsSnoc(before, Binding(dcs[i].field, value.value));
      assert Dynamic(dcs[..i + 1], target) == before + [Binding(dcs[i].field, value.value)];
      r := AppendOption(base, r, dcs[i].field, value.value, growth, read, spare, words + CliOptions(before));
      assert words + CliOptions(before) + ["--" + dcs[i].field, value.value] ==
             words + CliOptions(Dynamic(dcs[..i + 1], target));
    }
    DynamicWordsAre(dcs, target, |dcs|);
    assert dcs[..|dcs|] == dcs;
    return true, r;
  }

  /** The command of a cli container, built on the mechanism's own slice.  A call
      that fails has by then written into its spare cells as well. */
  method CliCommandInPlace(m: Mechanism, command: Slice, call: Call, growth: nat) returns (r: Option<Slice>)
    requires Ok(command) && CallOf(m, call)
    modifies command.cells
    ensures r.Some? <==> Resolvable(m.dynamicConfig, call.target)
    ensures r.Some? ==>
              && Appended(command, r.value, old(Words(command)), old(command.cells[command.len..]), CallWords(m, call))
              && (r.value.cells == command.cells || fresh(r.value.cells))
    ensures r.Some? && old(Words(command)) == m.container.command ==>
              Words(r.value) == CliCommand(m, call.order, call.target)
    ensures Words(command) == old(Words(command))
    ensures command.cells[command.len..] == Spill(old(command.cells[command.len..]), CallWords(m, call))
  {
    hide CallWords, Enumerates, DynamicWords, Spill;
    ghost var read, spare := Words(command), command.cells[command.len..];
    BeginAppend(command, read, spare);
    KeysInOrder(m, call);
    var s := AppendStatic(m, command, call.order, growth, read, spare);
    ghost var words := CliOptions(Static(call.order, m.config));
    var ok;
    ok, s := AppendDynamic(m.dynamicConfig, command, s, call.target, growth, read, spare, words);
    words := words + DynamicWords(m.dynamicConfig, call.target);
    CallWordsUnfold(m, call);
    if !ok {
      return None;
    }
    CallWordsAre(m, call);
    if |m.passTargetAs| > 0 {
      s := AppendNext(command, s, "--" + m.passTargetAs, growth, read, spare, words);
      words := words + ["--" + m.passTargetAs];
    }
    s := AppendNext(command, s, call.target, growth, read, spare, words);
    assert words + [call.target] == CallWords(m, call);
    return Some(s);
  }

  lemma KeysInOrder(m: Mechanism, call: Call)
    requires CallOf(m, call)
    ensures forall k :: k in call.order ==> k in m.config
  {
  }

  lemma CallWordsUnfold(m: Mechanism, call: Call)
    requires CallOf(m, call)
    ensures CallWords(m, call) ==
            var words := CliOptions(Static(call.order, m.config)) + DynamicWords(m.dynamicConfig, call.target);
            if !Resolvable(m.dynamicConfig, call.target) then words
            else if |m.passTargetAs| > 0 then words + ["--" + m.passTargetAs] + [call.target]
            else words + [call.target]
  {
  }

  lemma BeginAppend(base: Slice, read: seq<string>, spare: seq<string>)
    requires Ok(base) && read == Words(base) && spare == base.cells[base.len..]
    ensures Appended(base, base, read, spare, [])
  {
  }

  /** All words of all calls. */
  ghost function WordsOf(m: Mechanism, calls: seq<Call>): (r: seq<seq<string>>)
    requires forall i :: 0 <= i < |calls| ==> CallOf(m, calls[i])
    ensures |r| == |calls|
    ensures forall i :: 0 <= i < |r| && CallOf(m, calls[i]) ==> r[i] == CallWords(m, calls[i])
  {
    seq(|calls|, i requires 0 <= i < |calls| => assert CallOf(m, calls[i]); CallWords(m, calls[i]))
  }

  ghost predicate Reads(s: Slice, words: seq<string>)
    reads s.cells
  {
    Ok(s) && Words(s) == words
  }

  /** Any sequence of calls of one mechanism, failing ones among them: its own
      command reads the same throughout; a call gives a command exactly when its
      fields resolve; at the end that command reads its own words if it moved to
      its own array, and otherwise what all the calls together left in the cells. */
  method CommandsInPlace(m: Mechanism, command: Slice, calls: seq<Call>, growth: nat)
    returns (results: seq<Option<Slice>>)
    requires Ok(command) && forall i :: 0 <= i < |calls| ==> CallOf(m, calls[i])
    modifies command.cells
    ensures Words(command) == old(Words(command))
    ensures |results| == |calls|
    ensures forall i :: 0 <= i < |results| ==> (results[i].Some? <==> Resolvable(m.dynamicConfig, calls[i].target))
    ensures forall i :: 0 <= i < |results| && results[i].Some? ==>
              Built(command, results[i].value, old(Words(command)),
                    SpillAll(old(command.cells[command.len..]), WordsOf(m, calls)), CallWords(m, calls[i]))
  {
    hide CallWords, CallOf, Resolvable, Appended, Spill, DynamicValue;
    results := [];
    ghost var read, spare, all := Words(command), command.cells[command.len..], WordsOf(m, calls);
    for n := 0 to |calls|
      invariant |results| == n
      invariant Words(command) == read
      invariant command.cells[command.len..] == SpillAll(spare, all[..n])
      invariant forall i :: 0 <= i < n ==> (results[i].Some? <==> Resolvable(m.dynamicConfig, calls[i].target))
      invariant forall i :: 0 <= i < n && results[i].Some? ==>
                  if |all[i]| <= |spare| then results[i].value == Slice(command.cells, command.len + |all[i]|)
                  else fresh(results[i].value.cells) && Reads(results[i].value, read + all[i])
    {
      var r := CliCommandInPlace(m, command, calls[n], growth);
      assert all[..n + 1][..n] == all[..n];
      if r.Some? {
        AppendedIs(command, r.value, read, SpillAll(spare, all[..n]), all[n]);
      }
      results := results + [r];
    }
    assert all[..|calls|] == all;
    forall i | 0 <= i < |results| && results[i].Some?
      ensures Built(command, results[i].value, read, SpillAll(spare, all), all[i])
    {
      if |all[i]| <= |spare| {
        assert Words(results[i].value) == read + command.cells[command.len..][..|all[i]|];
      }
    }
  }

  lemma AppendedIs(base: Slice, r: Slice, read: seq<string>, spare: seq<string>, words: seq<string>)
    requires Appended(base, r, read, spare, words)
    ensures if |words| <= |spare| then r == Slice(base.cells, base.len + |words|)
            else r.cells != base.cells && Reads(r, read + words)
  {
  }

  /** The latest of the commands that reach cell p. */
  ghost predicate LastTo(commands: seq<seq<string>>, p: nat, j: nat) {
    j < |commands| && p < |commands[j]| && forall k :: j < k < |commands| ==> |commands[k]| <= p
  }

  lemma {:induction false} SpillReads(spare: seq<string>, commands: seq<seq<string>>, p: nat, j: nat)
    requires p < |spare| && LastTo(commands, p, j)
    ensures SpillAll(spare, commands)[p] == commands[j][p]
    decreases |commands|
  {
    var n := |commands| - 1;
    if j < n {
      assert LastTo(commands[..n], p, j);
      SpillReads(spare, commands[..n], p, j);
    }
  }

  lemma {:induction false} LastToExists(commands: seq<seq<string>>, p: nat, i: nat) returns (j: nat)
    requires i < |commands| && p < |commands[i]|
    ensures LastTo(commands, p, j)
    decreases |commands|
  {
    var n := |commands| - 1;
    if p < |commands[n]| {
      j := n;
    } else {
      j := LastToExists(commands[..n], p, i);
    }
  }

  /** Cell by cell, the latest command to write where command i stands wrote the same word. */
  ghost predicate LatestAgree(commands: seq<seq<string>>, i: nat)
    requires i < |commands|
  {
    forall p: nat, j: nat :: p < |commands[i]| && LastTo(commands, p, j) ==> commands[j][p] == commands[i][p]
  }

  /** A command in shared cells keeps its words exactly when the latest writers,
      be they calls that failed, wrote the same ones. */
  lemma KeepsItsWords(spare: seq<string>, commands: seq<seq<string>>, i: nat)
    requires i < |commands| && |commands[i]| <= |spare|
    ensures SpillAll(spare, commands)[..|commands[i]|] == commands[i] <==> LatestAgree(commands, i)
  {
    hide SpillAll;
    var pool, own := SpillAll(spare, commands), commands[i];
    if pool[..|own|] == own {
      forall p: nat, j: nat | p < |own| && LastTo(commands, p, j) ensures commands[j][p] == own[p] {
        SpillReads(spare, commands, p, j);
        assert pool[..|own|][p] == pool[p];
      }
    }
    if LatestAgree(commands, i) {
      forall p: nat | p < |own| ensures pool[p] == own[p] {
        var j := LastToExists(commands, p, i);
        SpillReads(spare, commands, p, j);
      }
    }
  }

  /** The commands of one mechanism all have one length, whatever the target. */
  lemma CommandLength(m: Mechanism, o: seq<string>, t: string, o': seq<string>, t': string)
    requires Enumerates(o, m.config) && Enumerates(o', m.config)
    requires Resolvable(m.dynamicConfig, t) && Resolvable(m.dynamicConfig, t')
    ensures |CliCommand(m, o, t)| == |CliCommand(m, o', t')|
  {
    EnumerationLength(o, m.config);
    EnumerationLength(o', m.config);
  }

  /** The latest command is always intact, so an earlier command of the same
      mechanism that shares its cells reads as the latest, whatever was between. */
  lemma SharedCommandsReadTheLast(m: Mechanism, spare: seq<string>, calls: seq<Call>, i: nat)
    requires i < |calls| && forall k :: 0 <= k < |calls| ==> CallOf(m, calls[k])
    requires Resolvable(m.dynamicConfig, calls[i].target)
    requires Resolvable(m.dynamicConfig, calls[|calls| - 1].target)
    requires |WordsOf(m, calls)[i]| <= |spare|
    ensures var all := WordsOf(m, calls);
            SpillAll(spare, all)[..|all[i]|] == all[|calls| - 1]
  {
    hide CallWords, Resolvable;
    var own, last := calls[i], calls[|calls| - 1];
    CommandLength(m, own.order, own.target, last.order, last.target);
    CallWordsAre(m, own);
    CallWordsAre(m, last);
  }
}
