// The one-line checkpoint file of the job wrapper: how it is written, and what is read back from any part of it.
module Checkpoint {
  import opened Wrappers
  import opened Text

  /** `float(word)`: left abstract, since which prefixes of a number still parse must not matter. */
  type FloatParser = string -> Option<real>

  /** What printing a CPU time yields: one non-empty word. */
  type CpuText = w: string | IsWord(w) witness "0"

  datatype Progress = Progress(ntasks: int, cpu: real)

  const NO_PROGRESS := Progress(0, 0.0)

  function Line(ntasks: int, cpu: CpuText): string {
    PrintInt(ntasks) + " " + cpu + "\n"
  }

  function Read(disk: Option<string>, float: FloatParser): Progress {
    match disk
    case None => NO_PROGRESS
    case Some(text) =>
      var data := Split(text[..LineLength(text)]);
      if |data| < 2 then NO_PROGRESS else
        match (ParseInt(data[0]), float(data[1]))
        case (Some(n), Some(c)) => Progress(n, c)
        case _ => NO_PROGRESS
  }

  /** The part of the CPU word that the first `p` characters of the line contain. */
  function CpuSeen(ntasks: int, cpu: CpuText, p: nat): string {
    var q := p - |PrintInt(ntasks)| - 1;
    if q < 0 then "" else if q < |cpu| then cpu[..q] else cpu
  }

  lemma PrefixText(n: int, cpu: CpuText, p: nat)
    requires p <= |Line(n, cpu)|
    ensures var num := PrintInt(n);
            var seen := CpuSeen(n, cpu, p);
            Line(n, cpu)[..p]
            == if p <= |num| then num[..p] else num + [' '] + seen + if p < |Line(n, cpu)| then "" else "\n"
  {
    var num := PrintInt(n);
    assert Line(n, cpu) == num + (" " + cpu + "\n");
    assert (" " + cpu + "\n")[1..] == cpu + "\n";
  }

  lemma NoBreakWithin(n: int, cpu: CpuText, i: nat)
    requires i < |Line(n, cpu)| - 1
    ensures Line(n, cpu)[i] != '\n'
  {
    var num := PrintInt(n);
    IntRoundTrip(n);
    hide PrintInt;
    assert Line(n, cpu)[i] == if i < |num| then num[i] else if i == |num| then ' ' else cpu[i - |num| - 1];
  }

  lemma OneLine(n: int, cpu: CpuText, p: nat)
    requires p <= |Line(n, cpu)|
    ensures LineLength(Line(n, cpu)[..p]) == p
  {
    hide Line;
    var line := Line(n, cpu);
    forall i | 0 <= i < |line| - 1 ensures line[i] != '\n' { NoBreakWithin(n, cpu, i); }
  }

  lemma WordsOfPrefix(n: int, cpu: CpuText, p: nat)
    requires p <= |Line(n, cpu)|
    ensures var seen := CpuSeen(n, cpu, p);
            var data := Split(Line(n, cpu)[..p]);
            if seen == "" then |data| < 2 else data == [PrintInt(n), seen]
  {
    var num := PrintInt(n);
    var seen := CpuSeen(n, cpu, p);
    IntRoundTrip(n);
    PrefixText(n, cpu, p);
    if p <= |num| {
      if p > 0 { SplitOne(num[..p]); }
    } else if seen == "" {
      assert num + [' '] + "" + "" == num + [' '] + "";
      SplitCons(num, ' ', "");
    } else {
      SplitTwo(num, seen, if p < |Line(n, cpu)| then "" else "\n");
    }
  }

  /** Every prefix of a written line reads as that task count exactly when enough of the CPU time survives, and as no
      progress otherwise: never as another count. */
  lemma PrefixReads(n: int, cpu: CpuText, p: nat, float: FloatParser)
    requires p <= |Line(n, cpu)|
    ensures var seen := CpuSeen(n, cpu, p);
            Read(Some(Line(n, cpu)[..p]), float)
            == if seen != "" && float(seen).Some? then Progress(n, float(seen).value) else NO_PROGRESS
  {
    var text := Line(n, cpu)[..p];
    OneLine(n, cpu, p);
    assert text[..|text|] == text;
    WordsOfPrefix(n, cpu, p);
    IntRoundTrip(n);
  }

  /** The whole line reads back as exactly what was written. */
  lemma FullLineReads(n: int, cpu: CpuText, value: real, float: FloatParser)
    requires float(cpu) == Some(value)
    ensures Read(Some(Line(n, cpu)), float) == Progress(n, value)
  {
    var line := Line(n, cpu);
    PrefixReads(n, cpu, |line|, float);
    assert line[..|line|] == line;
  }

  lemma LineIsPrefix(head: string, c: char, rest: string)
    requires '\n' !in head && IsBlank(c)
    ensures var text := head + [c] + rest;
            |head| < LineLength(text) && text[..LineLength(text)] == head + [c] + rest[..LineLength(text) - |head| - 1]
  {
    var text := head + [c] + rest;
    assert forall i :: 0 <= i < |head| ==> text[i] == head[i];
  }

  /** Whatever the file has after its first two words, in the first line or later, does not count. */
  lemma RestIgnored(n: int, cpu: CpuText, c: char, rest: string, float: FloatParser)
    requires IsBlank(c)
    ensures Read(Some(PrintInt(n) + [' '] + cpu + [c] + rest), float)
            == if float(cpu).Some? then Progress(n, float(cpu).value) else NO_PROGRESS
  {
    var num := PrintInt(n);
    IntRoundTrip(n);
    hide PrintInt, Split, LineLength, ParseInt;
    LineIsPrefix(num + [' '] + cpu, c, rest);
    var text := num + [' '] + cpu + [c] + rest;
    var more := rest[..LineLength(text) - |num| - 2 - |cpu|];
    assert num + [' '] + cpu + [c] + more == num + [' '] + (cpu + [c] + more);
    SplitCons(num, ' ', cpu + [c] + more);
    SplitCons(cpu, c, more);
  }
}
