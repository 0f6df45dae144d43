/** The block structured configuration file: `read_args` and `read_file`. */
module ConfigFile {
  import opened Text
  import opened Numbers

  /** The values of one host block before `Args` validates them. */
  datatype RawArgs = RawArgs(iface: string, addresses: seq<string>, ports: seq<string>, mac: string,
                             hostname: string, pingTries: string, wolMethod: string)

  const DEFAULT_IFACE := "lo"
  const DEFAULT_ADDRESSES := ["10.0.0.1/16", "fe80::123/64"]
  const DEFAULT_PORTS := ["12345", "23456"]
  const DEFAULT_MAC := "01:12:34:45:67:89"
  const DEFAULT_HOSTNAME := ""
  const DEFAULT_PING_TRIES := "5"
  const DEFAULT_WOL_METHOD := "ethernet"

  predicate IsHostLine(line: string) {
    "host" <= line
  }

  lemma HostLineIff(line: string)
    ensures IsHostLine(line) <==> |line| >= 4 && line[0] == 'h' && line[1] == 'o' && line[2] == 's' && line[3] == 't'
  {
  }

  // ---------------------------------------------------------------------------
  // The declarative reading of a file

  type Pair = (string, string)

  /** A line with exactly two words is a name and its value, any other line is skipped. */
  function PairOf(line: string): seq<Pair> {
    var token := Split(line, ' ');
    if |token| == 2 then [(token[0], token[1])] else []
  }

  function Pairs(block: seq<string>): seq<Pair> {
    if block == [] then [] else Pairs(block[..|block| - 1]) + PairOf(block[|block| - 1])
  }

  /** The value given last for a name. */
  function Last(pairs: seq<Pair>, name: string, default: string): string {
    if pairs == [] then default
    else if pairs[|pairs| - 1].0 == name then pairs[|pairs| - 1].1
    else Last(pairs[..|pairs| - 1], name, default)
  }

  /** All values given for a name, in order. */
  function All(pairs: seq<Pair>, name: string): seq<string> {
    if pairs == [] then []
    else All(pairs[..|pairs| - 1], name) + if pairs[|pairs| - 1].0 == name then [pairs[|pairs| - 1].1] else []
  }

  /** The values of some pairs before the list defaults are filled in. */
  function Collected(p: seq<Pair>): RawArgs {
    RawArgs(Last(p, "interface", DEFAULT_IFACE), All(p, "address"), All(p, "port"),
            Last(p, "mac", DEFAULT_MAC), Last(p, "name", DEFAULT_HOSTNAME), Last(p, "ping_tries", DEFAULT_PING_TRIES),
            Last(p, "wol_method", DEFAULT_WOL_METHOD))
  }

  function WithDefaults(raw: RawArgs): RawArgs {
    raw.(addresses := if raw.addresses == [] then DEFAULT_ADDRESSES else raw.addresses,
         ports := if raw.ports == [] then DEFAULT_PORTS else raw.ports)
  }

  /** What a block means: the last value of every scalar name, all addresses and ports in order, defaults for the rest. */
  function Entry(block: seq<string>): RawArgs {
    WithDefaults(Collected(Pairs(block)))
  }

  /** A line that gives a value for a name: exactly these two words. */
  predicate Gives(line: string, name: string) {
    var token := Split(line, ' ');
    |token| == 2 && token[0] == name
  }

  function ValueOn(line: string): string
    requires |Split(line, ' ')| == 2
  {
    Split(line, ' ')[1]
  }

  /** The values that the lines of a block give for a name, in order. */
  function ValuesOf(block: seq<string>, name: string): seq<string> {
    if block == [] then []
    else (if Gives(block[0], name) then [ValueOn(block[0])] else []) + ValuesOf(block[1..], name)
  }

  /** `value` is what the last line for the name gives, or the default when no line gives one. */
  ghost predicate IsLastGiven(value: string, block: seq<string>, name: string, default: string) {
    && (forall l :: 0 <= l < |block| && Gives(block[l], name) && (forall m :: l < m < |block| ==> !Gives(block[m], name)) ==>
          value == ValueOn(block[l]))
    && ((forall l :: 0 <= l < |block| ==> !Gives(block[l], name)) ==> value == default)
  }

  lemma {:induction false} LastIsGiven(block: seq<string>, name: string, default: string)
    ensures IsLastGiven(Last(Pairs(block), name, default), block, name, default)
  {
    if block != [] {
      var (front, line) := (block[..|block| - 1], block[|block| - 1]);
      LastIsGiven(front, name, default);
      LastOfBlock(Pairs(front), line, name, default);
      LastGivenStep(Last(Pairs(front), name, default), front, line, block, name, default);
    }
  }

  lemma LastOfBlock(pairs: seq<Pair>, line: string, name: string, default: string)
    ensures Last(pairs + PairOf(line), name, default) == if Gives(line, name) then ValueOn(line) else Last(pairs, name, default)
    ensures All(pairs + PairOf(line), name) == All(pairs, name) + if Gives(line, name) then [ValueOn(line)] else []
  {
    var token := Split(line, ' ');
    if |token| == 2 {
      LastSnoc(pairs, (token[0], token[1]), name, default);
    } else {
      assert pairs + [] == pairs;
    }
  }

  lemma LastGivenStep(value: string, front: seq<string>, line: string, block: seq<string>, name: string, default: string)
    requires IsLastGiven(value, front, name, default) && block == front + [line]
    ensures IsLastGiven(if Gives(line, name) then ValueOn(line) else value, block, name, default)
  {
    var last := if Gives(line, name) then ValueOn(line) else value;
    assert block[|front|] == line && forall l :: 0 <= l < |front| ==> block[l] == front[l];
    if !Gives(line, name) {
      forall l | 0 <= l < |block| && Gives(block[l], name) && (forall m :: l < m < |block| ==> !Gives(block[m], name))
        ensures last == ValueOn(block[l])
      {
        assert l < |front| && forall m :: l < m < |front| ==> !Gives(block[m], name);
      }
    }
  }

  lemma {:induction false} ValuesSnoc(front: seq<string>, line: string, name: string)
    ensures ValuesOf(front + [line], name) == ValuesOf(front, name) + if Gives(line, name) then [ValueOn(line)] else []
  {
    var block := front + [line];
    if front == [] {
      assert block[1..] == [];
    } else {
      assert block[1..] == front[1..] + [line];
      ValuesSnoc(front[1..], line, name);
    }
  }

  lemma {:induction false} AllIsValues(block: seq<string>, name: string)
    ensures All(Pairs(block), name) == ValuesOf(block, name)
  {
    if block != [] {
      var (front, line) := (block[..|block| - 1], block[|block| - 1]);
      AllIsValues(front, name);
      AllStep(front, line, Pairs(front), name);
      assert front + [line] == block;
    }
  }

  lemma AllStep(front: seq<string>, line: string, pairs: seq<Pair>, name: string)
    requires All(pairs, name) == ValuesOf(front, name)
    ensures All(pairs + PairOf(line), name) == ValuesOf(front + [line], name)
  {
    LastOfBlock(pairs, line, name, "");
    ValuesSnoc(front, line, name);
  }

  /** The lists of a block are its values in order, and two defaults each when it gives none. */
  lemma EntryLists(block: seq<string>)
    ensures var values := ValuesOf(block, "address");
      Entry(block).addresses == if values == [] then ["10.0.0.1/16", "fe80::123/64"] else values
    ensures var values := ValuesOf(block, "port");
      Entry(block).ports == if values == [] then ["12345", "23456"] else values
  {
    AllIsValues(block, "address");
    AllIsValues(block, "port");
  }

  /** Every other value of a block is the one given last, or its default when the block gives none. */
  lemma EntryScalars(block: seq<string>)
    ensures IsLastGiven(Entry(block).iface, block, "interface", "lo")
    ensures IsLastGiven(Entry(block).mac, block, "mac", "01:12:34:45:67:89")
    ensures IsLastGiven(Entry(block).hostname, block, "name", "")
    ensures IsLastGiven(Entry(block).pingTries, block, "ping_tries", "5")
    ensures IsLastGiven(Entry(block).wolMethod, block, "wol_method", "ethernet")
  {
    LastIsGiven(block, "interface", DEFAULT_IFACE);
    LastIsGiven(block, "mac", DEFAULT_MAC);
    LastIsGiven(block, "name", DEFAULT_HOSTNAME);
    LastIsGiven(block, "ping_tries", DEFAULT_PING_TRIES);
    LastIsGiven(block, "wol_method", DEFAULT_WOL_METHOD);
  }

  lemma {:induction false} SomeValue(block: seq<string>, name: string)
    ensures ValuesOf(block, name) == [] <==> forall l :: 0 <= l < |block| ==> !Gives(block[l], name)
  {
    if block != [] {
      SomeValue(block[1..], name);
      assert forall l :: 0 <= l < |block[1..]| ==> block[1..][l] == block[l + 1];
      assert forall l :: 1 <= l < |block| ==> block[l] == block[1..][l - 1];
    }
  }

  /** The first host line at or behind `i`, or the number of lines. */
  function NextHost(lines: seq<string>, i: nat): (j: nat)
    requires i <= |lines|
    ensures i <= j <= |lines| && (forall k :: i <= k < j ==> !IsHostLine(lines[k])) && (j < |lines| ==> IsHostLine(lines[j]))
    decreases |lines| - i
  {
    if i == |lines| || IsHostLine(lines[i]) then i else NextHost(lines, i + 1)
  }

  /** The blocks from `i` on, where `i` is right behind a host line. */
  function BlocksFrom(lines: seq<string>, i: nat): seq<seq<string>>
    requires i <= |lines|
    decreases |lines| - i
  {
    var j := NextHost(lines, i);
    [lines[i..j]] + if j < |lines| then BlocksFrom(lines, j + 1) else []
  }

  function Blocks(lines: seq<string>): seq<seq<string>> {
    var j := NextHost(lines, 0);
    if j == |lines| then [] else BlocksFrom(lines, j + 1)
  }

  /** The number of lines from `i` on that begin with "host". */
  function HostCount(lines: seq<string>, i: nat): nat
    requires i <= |lines|
    decreases |lines| - i
  {
    if i == |lines| then 0 else (if IsHostLine(lines[i]) then 1 else 0) + HostCount(lines, i + 1)
  }

  lemma {:induction false} HostCountSkip(lines: seq<string>, i: nat)
    requires i <= |lines|
    ensures var j := NextHost(lines, i); HostCount(lines, i) == if j == |lines| then 0 else 1 + HostCount(lines, j + 1)
    decreases |lines| - i
  {
    if i < |lines| && !IsHostLine(lines[i]) { HostCountSkip(lines, i + 1); }
  }

  lemma {:induction false} BlockCountFrom(lines: seq<string>, i: nat)
    requires i <= |lines|
    ensures |BlocksFrom(lines, i)| == 1 + HostCount(lines, i)
    decreases |lines| - i
  {
    HostCountSkip(lines, i);
    var j := NextHost(lines, i);
    if j < |lines| { BlockCountFrom(lines, j + 1); }
  }

  /** There is one block for every line that begins with "host". */
  lemma BlockPerHostLine(lines: seq<string>)
    ensures |Blocks(lines)| == HostCount(lines, 0)
  {
    HostCountSkip(lines, 0);
    var j := NextHost(lines, 0);
    if j < |lines| { BlockCountFrom(lines, j + 1); }
  }

  /** Block `n` ends at the next host line and holds none itself; `from` is where it starts. */
  lemma {:induction false} BlockExtent(lines: seq<string>, i: nat, n: nat) returns (from: nat)
    requires i <= |lines| && n < |BlocksFrom(lines, i)|
    ensures i <= from <= |lines| && (n > 0 ==> i < from)
    ensures BlocksFrom(lines, i)[n] == lines[from..NextHost(lines, from)]
    ensures n == 0 ==> from == i
    ensures n > 0 ==> IsHostLine(lines[from - 1])
    decreases |lines| - i
  {
    if n == 0 {
      from := i;
    } else {
      from := BlockExtent(lines, NextHost(lines, i) + 1, n - 1);
    }
  }

  // ---------------------------------------------------------------------------
  // The loops

  lemma PairsSnoc(lines: seq<string>, from: nat, to: nat)
    requires from <= to < |lines|
    ensures Pairs(lines[from..to + 1]) == Pairs(lines[from..to]) + PairOf(lines[to])
  {
    assert lines[from..to + 1][..to - from] == lines[from..to];
  }

  lemma LastSnoc(pairs: seq<Pair>, p: Pair, name: string, default: string)
    ensures Last(pairs + [p], name, default) == if p.0 == name then p.1 else Last(pairs, name, default)
    ensures All(pairs + [p], name) == All(pairs, name) + if p.0 == name then [p.1] else []
  {
    assert (pairs + [p])[..|pairs|] == pairs;
  }

  /** The chain of comparisons in `read_args`. */
  function Absorb(raw: RawArgs, name: string, value: string): RawArgs {
    if name == "interface" then raw.(iface := value)
    else if name == "address" then raw.(addresses := raw.addresses + [value])
    else if name == "port" then raw.(ports := raw.ports + [value])
    else if name == "mac" then raw.(mac := value)
    else if name == "name" then raw.(hostname := value)
    else if name == "ping_tries" then raw.(pingTries := value)
    else if name == "wol_method" then raw.(wolMethod := value)
    else raw
  }

  lemma NamesDiffer()
    ensures "port" != "name" && "ping_tries" != "wol_method"
  {
    assert "port"[0] != "name"[0] && "ping_tries"[0] != "wol_method"[0];
  }

  lemma AbsorbCollects(pairs: seq<Pair>, name: string, value: string)
    ensures Absorb(Collected(pairs), name, value) == Collected(pairs + [(name, value)])
  {
    var p := (name, value);
    LastSnoc(pairs, p, "interface", DEFAULT_IFACE);
    LastSnoc(pairs, p, "address", "");
    LastSnoc(pairs, p, "port", "");
    LastSnoc(pairs, p, "mac", DEFAULT_MAC);
    LastSnoc(pairs, p, "name", DEFAULT_HOSTNAME);
    LastSnoc(pairs, p, "ping_tries", DEFAULT_PING_TRIES);
    LastSnoc(pairs, p, "wol_method", DEFAULT_WOL_METHOD);
    NamesDiffer();
  }

  /** What one line that is not a host line does to the values read so far. */
  function Taken(raw: RawArgs, line: string): RawArgs {
    var token := Split(line, ' ');
    if |token| == 2 then Absorb(raw, token[0], token[1]) else raw
  }

  const NOTHING := RawArgs(DEFAULT_IFACE, [], [], DEFAULT_MAC, DEFAULT_HOSTNAME, DEFAULT_PING_TRIES, DEFAULT_WOL_METHOD)

  /** The values after one line after the other. */
  ghost function ReadSoFar(lines: seq<string>, from: nat, to: nat): RawArgs
    requires from <= to <= |lines|
  {
    if from == to then NOTHING else Taken(ReadSoFar(lines, from, to - 1), lines[to - 1])
  }

  lemma {:induction false} ReadIsCollected(lines: seq<string>, from: nat, to: nat) returns (pairs: seq<Pair>)
    requires from <= to <= |lines|
    ensures pairs == Pairs(lines[from..to]) && ReadSoFar(lines, from, to) == Collected(pairs)
  {
    if from == to {
      pairs := [];
    } else {
      var front := ReadIsCollected(lines, from, to - 1);
      pairs := front + PairOf(lines[to - 1]);
      PairsSnoc(lines, from, to - 1);
      TakenIsCollected(front, lines[to - 1], ReadSoFar(lines, from, to - 1));
    }
  }

  lemma ReadIsEntry(lines: seq<string>, from: nat, to: nat)
    requires from <= to <= |lines|
    ensures WithDefaults(ReadSoFar(lines, from, to)) == Entry(lines[from..to])
  {
    var pairs := ReadIsCollected(lines, from, to);
  }

  lemma TakenIsCollected(pairs: seq<Pair>, line: string, raw: RawArgs)
    requires raw == Collected(pairs)
    ensures Taken(raw, line) == Collected(pairs + PairOf(line))
  {
    var token := Split(line, ' ');
    if |token| == 2 { AbsorbCollects(pairs, token[0], token[1]); } else { assert pairs + [] == pairs; }
  }

  /** The part of `read_args` that deals with one line: empty lines and lines without two words are skipped. */
  method TakeLine(raw: RawArgs, line: string) returns (next: RawArgs)
    ensures next == Taken(raw, line)
  {
    if line == "" { return raw; }
    var token := SplitLoop(line, ' ');
    if |token| != 2 { return raw; }
    next := Absorb(raw, token[0], token[1]);
  }

  /** `read_args`: consumes lines up to and including the next host line; `good` is the stream state behind it. */
  method ReadArgs(lines: seq<string>, start: nat) returns (raw: RawArgs, next: nat, good: bool)
    requires start <= |lines|
    ensures var j := NextHost(lines, start);
      raw == Entry(lines[start..j]) && good == (j < |lines|) && next == if good then j + 1 else j
  {
    raw := NOTHING;
    next, good := start, true;
    ghost var n := start;
    while true
      invariant start <= n == next <= NextHost(lines, start) && good
      invariant raw == ReadSoFar(lines, start, n)
      decreases |lines| - n
    {
      if next == |lines| {
        good := false;
        break;
      }
      var line := lines[next];
      next := next + 1;
      if "host" <= line { break; }
      n := next;
      raw := TakeLine(raw, line);
    }
    ReadIsEntry(lines, start, n);
    raw := WithDefaults(raw);
  }

  /** All items converted in order; the first that is refused decides. */
  function Traverse<A, B>(items: seq<A>, f: A -> Converted<B>): Converted<seq<B>> {
    if items == [] then Ok([])
    else
      match Traverse(items[..|items| - 1], f)
      case Refused(why) => Refused(why)
      case Ok(front) => (
        match f(items[|items| - 1])
        case Refused(why) => Refused(why)
        case Ok(value) => Ok(front + [value]))
  }

  lemma TraverseSnoc<A, B>(items: seq<A>, item: A, f: A -> Converted<B>)
    requires Traverse(items, f).Ok?
    ensures Traverse(items + [item], f) ==
      if f(item).Ok? then Ok(Traverse(items, f).value + [f(item).value]) else Refused(f(item).why)
  {
    assert (items + [item])[..|items|] == items;
  }

  lemma {:induction false} FirstRefusalDecides<A, B>(front: seq<A>, back: seq<A>, f: A -> Converted<B>)
    requires Traverse(front, f).Refused?
    ensures Traverse(front + back, f) == Traverse(front, f)
  {
    if back == [] {
      assert front + back == front;
    } else {
      assert (front + back)[..|front + back| - 1] == front + back[..|back| - 1];
      FirstRefusalDecides(front, back[..|back| - 1], f);
    }
  }

  lemma {:induction false} TraverseEach<A, B>(items: seq<A>, f: A -> Converted<B>, n: nat)
    requires forall m :: 0 <= m < |items| ==> f(items[m]).Ok?
    ensures Traverse(items, f).Ok? && |Traverse(items, f).value| == |items|
    ensures n < |items| ==> Traverse(items, f).value[n] == f(items[n]).value
  {
    if items != [] {
      var (init, last) := (items[..|items| - 1], items[|items| - 1]);
      TraverseEach(init, f, n);
      TraverseSnoc(init, last, f);
      assert items == init + [last];
    }
  }

  /** Reading one block and validating it. */
  function Reader<T>(validate: RawArgs -> Converted<T>): seq<string> -> Converted<T> {
    (block: seq<string>) => validate(Entry(block))
  }

  /** The blocks that are still to be read when the stream is at `pos`. */
  function Remaining(lines: seq<string>, pos: nat, good: bool): seq<seq<string>>
    requires pos <= |lines|
  {
    if good then BlocksFrom(lines, pos) else []
  }

  lemma RemainingStep(lines: seq<string>, pos: nat, done: seq<seq<string>>)
    requires pos <= |lines|
    ensures var j := NextHost(lines, pos); var more := j < |lines|;
      done + Remaining(lines, pos, true) == done + [lines[pos..j]] + Remaining(lines, if more then j + 1 else j, more)
  {
  }

  /** The first loop of `read_file`: past the first host line, if there is one. */
  method SkipToHost(lines: seq<string>) returns (pos: nat, good: bool)
    ensures pos <= |lines| && Remaining(lines, pos, good) == Blocks(lines)
  {
    pos, good := 0, true;
    while true
      invariant 0 <= pos <= NextHost(lines, 0) && good
      decreases |lines| - pos
    {
      if pos == |lines| { return pos, false; }
      pos := pos + 1;
      if "host" <= lines[pos - 1] { return; }
    }
  }

  /** `read_file`: block after block while the stream is good; an exception ends it. */
  method ReadFile<T>(lines: seq<string>, validate: RawArgs -> Converted<T>) returns (r: Converted<seq<T>>)
    ensures r == Traverse(Blocks(lines), Reader(validate))
  {
    var pos, good := SkipToHost(lines);
    var entries := [];
    ghost var done: seq<seq<string>> := [];
    while good
      invariant 0 <= pos <= |lines|
      invariant Traverse(done, Reader(validate)) == Ok(entries)
      invariant done + Remaining(lines, pos, good) == Blocks(lines)
      decreases |lines| - pos, good
    {
      RemainingStep(lines, pos, done);
      ghost var block := lines[pos..NextHost(lines, pos)];
      var raw, next, more := ReadArgs(lines, pos);
      var args := validate(raw);
      pos, good := next, more;
      TraverseSnoc(done, block, Reader(validate));
      done := done + [block];
      if args.Refused? {
        FirstRefusalDecides(done, Remaining(lines, pos, good), Reader(validate));
        return Refused(args.why);
      }
      entries := entries + [args.value];
    }
    assert done + [] == done;
    return Ok(entries);
  }

  /** For a file whose blocks are all valid the result has one entry per host line, and entry `n` is block `n` read. */
  lemma ValidFileReads<T>(lines: seq<string>, validate: RawArgs -> Converted<T>, n: nat)
    requires forall m :: 0 <= m < |Blocks(lines)| ==> validate(Entry(Blocks(lines)[m])).Ok?
    ensures var r := Traverse(Blocks(lines), Reader(validate));
      && r.Ok? && |r.value| == HostCount(lines, 0) == |Blocks(lines)|
      && (n < |r.value| ==> r.value[n] == validate(Entry(Blocks(lines)[n])).value)
  {
    BlockPerHostLine(lines);
    TraverseEach(Blocks(lines), Reader(validate), n);
  }
}
