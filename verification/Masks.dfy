/** mlog's log masks as text: printing all masks and parsing the text back. */
module Masks {
  import opened Types

  const NORM: seq<string> := ["DBUG", "INFO", "NOTE", "WARN", "ERR ", "CRIT", "ALRT", "EMRG"]
  const DBG: seq<string> := ["D---", "D3--", "D2--", "D23-", "D1--", "D13-", "D12-", "D123",
                             "D0--", "D03-", "D02-", "D023", "D01-", "D013", "D012", "DBUG"]

  const PRI: nat := 0x10_0000     // 1 << MLOG_PRISHIFT
  const DPRI: nat := 0x1_0000     // 1 << MLOG_DPRISHIFT

  // ------------------------------------------------------------ masks

  /** A value within MLOG_PRIMASK. */
  predicate MaskOk(m: nat) { m % DPRI == 0 && m <= 0x7f_0000 }

  function Level(m: nat): nat { m / PRI % 8 }
  function Debug(m: nat): nat { m / DPRI % 16 }

  /** A pure priority or pure debug bits. */
  predicate IsPure(m: nat) { Level(m) == 0 || Debug(m) == 0 }

  /** What printing keeps of a mask: debug bits beside a priority are lost. */
  function Pure(m: nat): nat { if Level(m) != 0 then Level(m) * PRI else m }

  lemma PureIs(m: nat)
    requires MaskOk(m)
    ensures (Pure(m) == m <==> IsPure(m)) && m == Level(m) * PRI + Debug(m) * DPRI && MaskOk(Pure(m)) && IsPure(Pure(m))
  {
  }

  // ------------------------------------------------------------ names

  function Lower(c: char): char { if 'A' <= c <= 'Z' then (c as int + 32) as char else c }

  /** strcasecmp == 0. */
  predicate SameName(a: string, b: string) {
    |a| == |b| && forall i :: 0 <= i < |a| ==> Lower(a[i]) == Lower(b[i])
  }

  /** mlog_pristr. */
  function PriName(m: nat): (s: string)
    ensures |s| == 4
  {
    var l := Level(m);
    if l != 0 then NORM[l] else DBG[Debug(m)]
  }

  /** How much of a name mlog_getmasks prints: up to the first blank or dash. */
  function CutAt(s: string, i: nat): (n: nat)
    requires i <= |s|
    ensures i <= n <= |s|
    decreases |s| - i
  {
    if i == |s| || s[i] == ' ' || s[i] == '-' then i else CutAt(s, i + 1)
  }

  function PriText(m: nat): string { PriName(m)[..CutAt(PriName(m), 0)] }

  /** The first name of the table from i on that p is the same as. */
  function Find(table: seq<string>, p: string, i: nat): (r: Option<nat>)
    requires i <= |table|
    ensures r.Some? ==> i <= r.value < |table|
    decreases |table| - i
  {
    if i == |table| then None else if SameName(p, table[i]) then Some(i) else Find(table, p, i + 1)
  }

  function Dashes(n: nat): (s: string)
    ensures |s| == n && forall i :: 0 <= i < n ==> s[i] == '-'
  {
    seq(n, i => '-')
  }

  /** Debug names may be given without their dashes. */
  function Padded(p: string): string {
    if |p| > 0 && p[0] == 'D' && |p| < 4 then p + Dashes(4 - |p|) else p
  }

  /** mlog_str2pri. */
  function Str2Pri(p: string): Option<nat> {
    if |p| > 5 then None
    else if SameName(p, "ERR") then Some(4 * PRI)
    else if SameName(p, "DEBUG") then Some(15 * DPRI)
    else
      match Find(NORM, Padded(p), 1)
      case Some(l) => Some(l * PRI)
      case None => (match Find(DBG, Padded(p), 0) case Some(d) => Some(d * DPRI) case None => None)
  }

  lemma {:induction false} FindIs(table: seq<string>, p: string, i: nat, k: nat)
    requires i <= k < |table| && SameName(p, table[k])
    requires forall j :: i <= j < k ==> !SameName(p, table[j])
    ensures Find(table, p, i) == Some(k)
    decreases k - i
  {
    if i < k { FindIs(table, p, i + 1, k); }
  }

  lemma {:induction false} FindNone(table: seq<string>, p: string, i: nat)
    requires i <= |table| && forall j :: i <= j < |table| ==> !SameName(p, table[j])
    ensures Find(table, p, i) == None
    decreases |table| - i
  {
    if i < |table| { FindNone(table, p, i + 1); }
  }

  lemma DebugNamesDiffer(i: nat, j: nat)
    requires i < j < 16
    ensures !SameName(DBG[j], DBG[i])
  {
    var a, b := DBG[i], DBG[j];
    assert |a| == 4 && |b| == 4 && (a[1] != b[1] || a[2] != b[2] || a[3] != b[3]);
  }

  lemma LevelNamesDiffer(i: nat, j: nat)
    requires 1 <= i < j < 8
    ensures !SameName(NORM[j], NORM[i])
  {
    var a, b := NORM[i], NORM[j];
    assert |a| == 4 && |b| == 4 && (a[0] != b[0] || a[1] != b[1]);
  }

  lemma DebugIsNoLevel(d: nat, l: nat)
    requires d < 16 && 1 <= l < 8
    ensures !SameName(DBG[d], NORM[l])
  {
    assert DBG[d][0] == 'D' && NORM[l][0] in {'I', 'N', 'W', 'E', 'C', 'A'};
  }

  /** A debug name is its printed part and dashes. */
  lemma DebugText(d: nat)
    requires d < 16
    ensures var n := CutAt(DBG[d], 0);
            1 <= n <= 4 && Padded(DBG[d][..n]) == DBG[d]
            && !SameName(DBG[d][..n], "ERR") && !SameName(DBG[d][..n], "DEBUG")
  {
    var s := DBG[d];
    assert |s| == 4 && s[0] == 'D';
    var n := CutAt(s, 0);
    CutSteps(s);
    assert forall i :: n <= i < 4 ==> s[i] == '-';
    assert s[..n][0] == 'D';
    if n < 4 { assert s[..n] + Dashes(4 - n) == s; } else { assert s[..n] == s; }
  }

  lemma CutSteps(s: string)
    requires |s| == 4
    ensures CutAt(s, 0) == if s[0] in " -" then 0 else if s[1] in " -" then 1 else if s[2] in " -" then 2
            else if s[3] in " -" then 3 else 4
  {
    assert CutAt(s, 4) == 4;
    assert CutAt(s, 3) == if s[3] in " -" then 3 else CutAt(s, 4);
    assert CutAt(s, 2) == if s[2] in " -" then 2 else CutAt(s, 3);
    assert CutAt(s, 1) == if s[1] in " -" then 1 else CutAt(s, 2);
  }

  lemma LevelText(l: nat)
    requires 1 <= l < 8
    ensures var n := CutAt(NORM[l], 0);
            if l == 4 then NORM[l][..n] == "ERR"
            else NORM[l][..n] == NORM[l] && NORM[l][0] != 'D' && !SameName(NORM[l], "ERR")
  {
  }

  /** Parsing what was printed gives the mask back, exactly if it is a pure
      priority or pure debug bits. */
  lemma PriRoundTrip(m: nat)
    requires MaskOk(m)
    ensures Str2Pri(PriText(m)) == Some(Pure(m))
    ensures Str2Pri(PriText(m)) == Some(m) <==> IsPure(m)
  {
    hide Str2Pri, CutAt;
    PureIs(m);
    if Level(m) != 0 { LevelBack(Level(m)); } else { DebugBack(Debug(m)); }
  }

  lemma LevelBack(l: nat)
    requires 1 <= l < 8
    ensures Str2Pri(NORM[l][..CutAt(NORM[l], 0)]) == Some(l * PRI)
  {
    LevelText(l);
    if l != 4 {
      forall j | 1 <= j < l ensures !SameName(NORM[l], NORM[j]) { LevelNamesDiffer(j, l); }
      FindIs(NORM, NORM[l], 1, l);
    }
  }

  lemma DebugBack(d: nat)
    requires d < 16
    ensures Str2Pri(DBG[d][..CutAt(DBG[d], 0)]) == Some(d * DPRI)
  {
    DebugText(d);
    forall l | 1 <= l < 8 ensures !SameName(DBG[d], NORM[l]) { DebugIsNoLevel(d, l); }
    FindNone(NORM, DBG[d], 1);
    forall j | 0 <= j < d ensures !SameName(DBG[d], DBG[j]) { DebugNamesDiffer(j, d); }
    FindIs(DBG, DBG[d], 0, d);
  }

  // ------------------------------------------------------------ all masks as text

  /** A facility's short and long name, either of which may be missing. */
  datatype Fac = Fac(sname: Option<string>, lname: Option<string>)

  function Decimal(n: nat): string {
    (if n < 10 then "" else Decimal(n / 10)) + [('0' as int + n % 10) as char]
  }

  /** The name mlog_getmasks prints: long, else short, else the number. */
  function Printed(facs: seq<Fac>, i: nat): string
    requires i < |facs|
  {
    match facs[i].lname
    case Some(l) => l
    case None => (match facs[i].sname case Some(s) => s case None => Decimal(i))
  }

  function Entry(facs: seq<Fac>, masks: seq<nat>, i: nat): string
    requires i < |facs| == |masks|
  {
    Printed(facs, i) + "=" + PriText(masks[i])
  }

  /** The text from facility i on. */
  function TextFrom(facs: seq<Fac>, masks: seq<nat>, i: nat): string
    requires i <= |facs| == |masks|
    decreases |facs| - i
  {
    if i == |facs| then "\n"
    else Entry(facs, masks, i) + if i + 1 < |facs| then "," + TextFrom(facs, masks, i + 1) else "\n"
  }

  // ------------------------------------------------------------ parsing

  /** The first c in s at or after i, or the end. */
  function IndexOf(s: string, c: char, i: nat): (k: nat)
    requires i <= |s|
    ensures i <= k <= |s| && (k < |s| ==> s[k] == c) && forall j :: i <= j < k ==> s[j] != c
    decreases |s| - i
  {
    if i == |s| || s[i] == c then i else IndexOf(s, c, i + 1)
  }

  predicate IsBlank(c: char) { c == ' ' || c == '\t' }

  function SkipBlanks(s: string): string {
    if s != "" && IsBlank(s[0]) then SkipBlanks(s[1..]) else s
  }

  function TrimRight(s: string): string {
    if s != "" && (IsBlank(s[|s| - 1]) || s[|s| - 1] == '\n') then TrimRight(s[..|s| - 1]) else s
  }

  predicate Answers(f: Fac, name: string) {
    (f.sname.Some? && SameName(f.sname.value, name)) || (f.lname.Some? && SameName(f.lname.value, name))
  }

  /** The first facility from i on with that short or long name. */
  function Lookup(facs: seq<Fac>, name: string, i: nat): (r: Option<nat>)
    requires i <= |facs|
    ensures r.Some? ==> i <= r.value < |facs| && Answers(facs[r.value], name) && forall j :: i <= j < r.value ==>
              !Answers(facs[j], name)
    ensures r.None? ==> forall j :: i <= j < |facs| ==> !Answers(facs[j], name)
    decreases |facs| - i
  {
    if i == |facs| then None else if Answers(facs[i], name) then Some(i) else Lookup(facs, name, i + 1)
  }

  /** One entry between commas; unknown priorities and facilities change nothing. */
  function Apply(facs: seq<Fac>, masks: seq<nat>, chunk: string, last: bool): (r: seq<nat>)
    requires |facs| == |masks|
    ensures |r| == |masks|
  {
    if chunk == "" then masks
    else
      var e := IndexOf(chunk, '=', 0);
      var p := if e < |chunk| then chunk[e + 1..] else chunk;
      match Str2Pri(if last then TrimRight(p) else p)
      case None => masks
      case Some(m) =>
        if e == |chunk| then seq(|masks|, i => m)
        else match Lookup(facs, chunk[..e], 0) case None => masks case Some(i) => masks[i := m]
  }

  function ParseAll(facs: seq<Fac>, masks: seq<nat>, s: string): (r: seq<nat>)
    requires |facs| == |masks|
    ensures |r| == |masks|
    decreases |s|
  {
    var k := IndexOf(s, ',', 0);
    if k < |s| then ParseAll(facs, Apply(facs, masks, s[..k], false), s[k + 1..])
    else Apply(facs, masks, s, true)
  }

  /** mlog_setmasks. */
  function Parsed(facs: seq<Fac>, masks: seq<nat>, s: string): (r: seq<nat>)
    requires |facs| == |masks|
    ensures |r| == |masks|
  {
    ParseAll(facs, masks, SkipBlanks(s))
  }

  // ------------------------------------------------------------ round trip

  /** Printed names lead back to their facility and do not clash with the syntax. */
  ghost predicate NamesOk(facs: seq<Fac>) {
    && (forall i :: 0 <= i < |facs| ==> ',' !in Printed(facs, i) && '=' !in Printed(facs, i))
    && (forall i :: 0 <= i < |facs| ==> Lookup(facs, Printed(facs, i), 0) == Some(i))
    && (|facs| > 0 && Printed(facs, 0) != "" ==> !IsBlank(Printed(facs, 0)[0]))
  }

  /** Names that differ in more than case lead back to their facility. */
  lemma DistinctNamesWork(facs: seq<Fac>, i: nat)
    requires i < |facs| && (facs[i].lname.Some? || facs[i].sname.Some?)
    requires forall j :: 0 <= j < i ==> !Answers(facs[j], Printed(facs, i))
    ensures Lookup(facs, Printed(facs, i), 0) == Some(i)
  {
  }

  function Pures(masks: seq<nat>): (r: seq<nat>)
    ensures |r| == |masks| && forall i :: 0 <= i < |masks| ==> r[i] == Pure(masks[i])
  {
    seq(|masks|, i requires 0 <= i < |masks| => Pure(masks[i]))
  }

  /** No character of a printed priority means anything to the parser. */
  lemma PriChars(m: nat)
    ensures PriText(m) != "" && |PriText(m)| <= 4
    ensures forall k :: 0 <= k < |PriText(m)| ==> PriText(m)[k] !in ",=\t\n -"
  {
    var s := PriName(m);
    NameChars(m);
    CutSteps(s);
    var n := CutAt(s, 0);
    forall k | 0 <= k < n ensures s[k] !in ",=\t\n -" { assert s[k] !in " -"; }
    assert n > 0;
  }

  lemma NameChars(m: nat)
    ensures var s := PriName(m); s[0] !in " -" && forall k :: 0 <= k < 4 ==> s[k] !in ",=\t\n"
  {
    var s := PriName(m);
    var l, d := Level(m), Debug(m);
    if l != 0 { LevelChars(l); } else { DebugChars(d); }
  }

  lemma LevelChars(l: nat)
    requires 1 <= l < 8
    ensures var s := NORM[l]; s[0] !in " -" && forall k :: 0 <= k < 4 ==> s[k] !in ",=\t\n"
  {
  }

  lemma DebugChars(d: nat)
    requires d < 16
    ensures var s := DBG[d]; s[0] !in " -" && forall k :: 0 <= k < 4 ==> s[k] !in ",=\t\n"
  {
  }

  lemma FirstAt(a: string, c: char, b: string)
    requires c !in a
    ensures IndexOf(a + [c] + b, c, 0) == |a|
  {
    var s := a + [c] + b;
    assert s[|a|] == c && forall j :: 0 <= j < |a| ==> s[j] == a[j];
  }

  /** An entry sets its facility's mask to what printing kept of it. */
  lemma EntryApplies(facs: seq<Fac>, masks0: seq<nat>, masks: seq<nat>, i: nat, last: bool)
    requires NamesOk(facs) && |facs| == |masks0| == |masks| && i < |facs| && MaskOk(masks[i])
    ensures Apply(facs, masks0, Entry(facs, masks, i) + (if last then "\n" else ""),
                  last) == masks0[i := Pure(masks[i])]
  {
    hide Str2Pri, PriText, Lookup, MaskOk, Pure, IsPure;
    var name, pri := Printed(facs, i), PriText(masks[i]);
    var end := if last then "\n" else "";
    var chunk := Entry(facs, masks, i) + end;
    assert chunk == name + ['='] + (pri + end);
    FirstAt(name, '=', pri + end);
    assert chunk[..|name|] == name && chunk[|name| + 1..] == pri + end;
    PriChars(masks[i]);
    PriRoundTrip(masks[i]);
    if last { Trimmed(pri); } else { assert pri + end == pri; }
  }

  lemma Trimmed(pri: string)
    requires pri != "" && pri[|pri| - 1] !in "\t\n "
    ensures TrimRight(pri + "\n") == pri
  {
    assert (pri + "\n")[..|pri|] == pri;
  }

  lemma {:induction false} TextParses(facs: seq<Fac>, masks0: seq<nat>, masks: seq<nat>, i: nat)
    requires NamesOk(facs) && |facs| == |masks0| == |masks| && i < |facs|
    requires forall k :: 0 <= k < |masks| ==> MaskOk(masks[k])
    ensures ParseAll(facs, masks0, TextFrom(facs, masks, i)) == masks0[..i] + Pures(masks)[i..]
    decreases |facs| - i
  {
    hide NamesOk, Apply, Entry, MaskOk, Pure, ParseAll;
    var entry := Entry(facs, masks, i);
    NoComma(facs, masks, i);
    EntryApplies(facs, masks0, masks, i, i + 1 == |facs|);
    var next := masks0[i := Pure(masks[i])];
    assert entry + "" == entry;
    assert next[..i + 1] + Pures(masks)[i + 1..] == masks0[..i] + Pures(masks)[i..];
    if i + 1 < |facs| {
      ParseFirst(facs, masks0, entry, TextFrom(facs, masks, i + 1));
      TextParses(facs, next, masks, i + 1);
    } else {
      ParseLast(facs, masks0, entry + "\n");
    }
  }

  lemma ParseFirst(facs: seq<Fac>, masks: seq<nat>, chunk: string, rest: string)
    requires |facs| == |masks| && ',' !in chunk
    ensures ParseAll(facs, masks, chunk + ("," + rest)) == ParseAll(facs, Apply(facs, masks, chunk, false), rest)
  {
    hide Apply;
    var s := chunk + ("," + rest);
    assert s == chunk + [','] + rest;
    FirstAt(chunk, ',', rest);
    assert s[..|chunk|] == chunk && s[|chunk| + 1..] == rest;
  }

  lemma ParseLast(facs: seq<Fac>, masks: seq<nat>, chunk: string)
    requires |facs| == |masks| && ',' !in chunk
    ensures ParseAll(facs, masks, chunk) == Apply(facs, masks, chunk, true)
  {
  }

  lemma NoComma(facs: seq<Fac>, masks: seq<nat>, i: nat)
    requires NamesOk(facs) && i < |facs| == |masks|
    ensures ',' !in Entry(facs, masks, i)
  {
    hide PriText, Lookup;
    PriChars(masks[i]);
  }

  /** Parsing the printed masks, whatever the masks are meanwhile, restores what
      printing kept of each; that is every mask exactly if all are pure. */
  lemma MasksRoundTrip(facs: seq<Fac>, masks0: seq<nat>, masks: seq<nat>)
    requires NamesOk(facs) && |facs| == |masks0| == |masks|
    requires forall k :: 0 <= k < |masks| ==> MaskOk(masks[k])
    ensures Parsed(facs, masks0, TextFrom(facs, masks, 0)) == Pures(masks)
    ensures Parsed(facs, masks0, TextFrom(facs, masks, 0)) == masks <==> forall k :: 0 <= k < |masks| ==>
              IsPure(masks[k])
  {
    var text := TextFrom(facs, masks, 0);
    forall k | 0 <= k < |masks| ensures Pure(masks[k]) == masks[k] <==> IsPure(masks[k]) { PureIs(masks[k]); }
    if |facs| > 0 {
      StartsClean(facs, masks);
      TextParses(facs, masks0, masks, 0);
    }
  }

  lemma StartsClean(facs: seq<Fac>, masks: seq<nat>)
    requires NamesOk(facs) && 0 < |facs| == |masks|
    ensures SkipBlanks(TextFrom(facs, masks, 0)) == TextFrom(facs, masks, 0)
  {
  }

  // ------------------------------------------------------------ what the text means

  const EMERG: nat := 0x70_0000
  const ALERT: nat := 0x60_0000
  const CRIT: nat := 0x50_0000
  const ERR: nat := 0x40_0000
  const WARN: nat := 0x30_0000
  const NOTE: nat := 0x20_0000
  const INFO: nat := 0x10_0000
  const DEBUG: nat := 0xf_0000
  const DBG0: nat := 0x8_0000
  const DBG1: nat := 0x4_0000
  const DBG2: nat := 0x2_0000
  const DBG3: nat := 0x1_0000

  /** The name of a set of debug streams without its dashes. */
  function Streams(d0: bool, d1: bool, d2: bool, d3: bool): string {
    if d0 && d1 && d2 && d3 then "DBUG"
    else "D" + (if d0 then "0" else "") + (if d1 then "1" else "") + (if d2 then "2" else "") + if d3 then "3" else ""
  }

  function StreamMask(d0: bool, d1: bool, d2: bool, d3: bool): nat {
    (if d0 then DBG0 else 0) + (if d1 then DBG1 else 0) + (if d2 then DBG2 else 0) + if d3 then DBG3 else 0
  }

  /** Each level has its name. */
  lemma LevelNames()
    ensures Str2Pri("EMRG") == Some(EMERG) && PriText(EMERG) == "EMRG"
    ensures Str2Pri("ALRT") == Some(ALERT) && PriText(ALERT) == "ALRT"
    ensures Str2Pri("CRIT") == Some(CRIT) && PriText(CRIT) == "CRIT"
    ensures Str2Pri("ERR") == Some(ERR) && PriText(ERR) == "ERR"
    ensures Str2Pri("WARN") == Some(WARN) && PriText(WARN) == "WARN"
    ensures Str2Pri("NOTE") == Some(NOTE) && PriText(NOTE) == "NOTE"
    ensures Str2Pri("INFO") == Some(INFO) && PriText(INFO) == "INFO"
    ensures Str2Pri("DEBUG") == Some(DEBUG)
  {
    hide Str2Pri, CutAt;
    forall l | 1 <= l < 8
      ensures Str2Pri(NORM[l][..CutAt(NORM[l], 0)]) == Some(l * PRI) && PriText(l * PRI) == NORM[l][..CutAt(NORM[l], 0)]
    {
      LevelBack(l);
    }
    LevelText(1); LevelText(2); LevelText(3); LevelText(4); LevelText(5); LevelText(6); LevelText(7);
    DebugWord();
  }

  lemma DebugWord()
    ensures Str2Pri("DEBUG") == Some(DEBUG)
  {
  }

  /** Each set of debug streams is written as D and the streams' numbers. */
  lemma StreamNames(d0: bool, d1: bool, d2: bool, d3: bool)
    ensures Str2Pri(Streams(d0, d1, d2, d3)) == Some(StreamMask(d0, d1, d2, d3))
    ensures PriText(StreamMask(d0, d1, d2, d3)) == Streams(d0, d1, d2, d3)
  {
    hide Str2Pri, CutAt, Streams, StreamMask, Level, Debug;
    var d := StreamMask(d0, d1, d2, d3) / DPRI;
    StreamParts(d0, d1, d2, d3);
    StreamText(d0, d1, d2, d3);
    DebugBack(d);
  }

  lemma StreamParts(d0: bool, d1: bool, d2: bool, d3: bool)
    ensures var m := StreamMask(d0, d1, d2, d3); Level(m) == 0 && Debug(m) == m / DPRI < 16 && m == m / DPRI * DPRI
  {
  }

  lemma StreamText(d0: bool, d1: bool, d2: bool, d3: bool)
    ensures var s := DBG[StreamMask(d0, d1, d2, d3) / DPRI]; s[..CutAt(s, 0)] == Streams(d0, d1, d2, d3)
  {
    hide CutAt;
    CutSteps(DBG[StreamMask(d0, d1, d2, d3) / DPRI]);
    if d0 { StreamsOf(true, d1, d2, d3); } else { StreamsOf(false, d1, d2, d3); }
  }

  lemma StreamsOf(d0: bool, d1: bool, d2: bool, d3: bool)
    ensures Streams(d0, d1, d2, d3) + Dashes(4 - |Streams(d0, d1, d2, d3)|) == DBG[StreamMask(d0, d1, d2, d3) / DPRI]
  {
    if d0 { if d1 { if d2 { } } else { if d2 { } } } else { if d1 { if d2 { } } else { if d2 { } } }
  }

  /** No other text is a priority: p is one of the names in any case, where a
      debug name with a capital D may lack its dashes. */
  lemma PriorityIff(p: string, m: nat)
    ensures Str2Pri(p) == Some(m) <==>
              || (SameName(p, "ERR") && m == ERR) || (SameName(p, "DEBUG") && m == DEBUG)
              || (|p| <= 5 && exists l :: 1 <= l < 8 && SameName(Padded(p), NORM[l]) && m == l * PRI)
              || (|p| <= 5 && exists d :: 0 <= d < 16 && SameName(Padded(p), DBG[d]) && m == d * DPRI)
  {
    hide Padded, Find, SameName;
    var q := Padded(p);
    FindFinds(NORM, q, 1);
    FindFinds(DBG, q, 0);
    if SameName(p, "ERR") || SameName(p, "DEBUG") { SpecialNames(p); }
    OneName(q);
  }

  /** A text is at most one name of the tables. */
  lemma OneName(q: string)
    ensures forall i, j :: 1 <= i < j < 8 ==> !(SameName(q, NORM[i]) && SameName(q, NORM[j]))
    ensures forall i, j :: 0 <= i < j < 16 ==> !(SameName(q, DBG[i]) && SameName(q, DBG[j]))
    ensures forall d, l :: 0 <= d < 16 && 1 <= l < 8 ==> !(SameName(q, DBG[d]) && SameName(q, NORM[l]))
  {
    forall i, j | 1 <= i < j < 8 ensures !(SameName(q, NORM[i]) && SameName(q, NORM[j])) { LevelNamesDiffer(i, j); }
    forall i, j | 0 <= i < j < 16 ensures !(SameName(q, DBG[i]) && SameName(q, DBG[j])) { DebugNamesDiffer(i, j); }
    forall d, l | 0 <= d < 16 && 1 <= l < 8 ensures !(SameName(q, DBG[d]) && SameName(q, NORM[l])) {
      DebugIsNoLevel(d, l);
    }
  }

  /** The two names that are compared first are in no table. */
  lemma SpecialNames(p: string)
    requires SameName(p, "ERR") || SameName(p, "DEBUG")
    ensures |p| <= 5 && !(SameName(p, "ERR") && SameName(p, "DEBUG"))
    ensures forall l :: 1 <= l < 8 ==> !SameName(Padded(p), NORM[l])
    ensures forall d :: 0 <= d < 16 ==> !SameName(Padded(p), DBG[d])
  {
  }

  lemma {:induction false} FindFinds(table: seq<string>, p: string, i: nat)
    requires i <= |table|
    ensures var r := Find(table, p, i);
            && (r.Some? ==> SameName(p, table[r.value]))
            && (r.None? ==> forall j :: i <= j < |table| ==> !SameName(p, table[j]))
    decreases |table| - i
  {
    if i < |table| { FindFinds(table, p, i + 1); }
  }

  /** Text without the characters that end an entry or a name. */
  predicate IsWord(p: string) {
    p != "" && !IsBlank(p[0]) && p[|p| - 1] !in " \t\n" && ',' !in p && '=' !in p
  }

  /** A priority by itself sets every mask; anything else by itself changes none. */
  lemma NamelessSetsAll(facs: seq<Fac>, masks: seq<nat>, p: string, end: string)
    requires |facs| == |masks| && IsWord(p) && (end == "" || end == ",")
    ensures match Str2Pri(p)
            case Some(m) => forall i :: 0 <= i < |masks| ==> Parsed(facs, masks, p + end)[i] == m
            case None => Parsed(facs, masks, p + end) == masks
  {
    hide Str2Pri, Lookup;
    OneEntry(facs, masks, p, end);
    assert IndexOf(p, '=', 0) == |p|;
    assert TrimRight(p) == p;
  }

  /** name=priority sets the mask of the first facility that answers to the name,
      and no other; if the priority is unknown it sets none. */
  lemma NamedSetsOne(facs: seq<Fac>, masks: seq<nat>, name: string, p: string, end: string)
    requires |facs| == |masks| && ',' !in name && '=' !in name && (name != "" ==> !IsBlank(name[0]))
    requires ',' !in p && (p != "" ==> p[|p| - 1] !in " \t\n") && (end == "" || end == ",")
    ensures forall i :: 0 <= i < |masks| ==>
              Parsed(facs, masks, name + "=" + p + end)[i] ==
              if Answers(facs[i], name) && (forall j :: 0 <= j < i ==> !Answers(facs[j], name)) && Str2Pri(p).Some?
              then Str2Pri(p).value else masks[i]
  {
    hide Str2Pri, Answers, Apply, Parsed;
    var chunk := name + "=" + p;
    assert chunk[0] == if name != "" then name[0] else '=';
    OneEntry(facs, masks, chunk, end);
    NamedApply(facs, masks, name, p, end == "");
  }

  lemma NamedApply(facs: seq<Fac>, masks: seq<nat>, name: string, p: string, last: bool)
    requires |facs| == |masks| && '=' !in name && (p != "" ==> p[|p| - 1] !in " \t\n")
    ensures forall i :: 0 <= i < |masks| ==>
              Apply(facs, masks, name + "=" + p, last)[i] ==
              if Answers(facs[i], name) && (forall j :: 0 <= j < i ==> !Answers(facs[j], name)) && Str2Pri(p).Some?
              then Str2Pri(p).value else masks[i]
  {
    hide Str2Pri, Lookup, Answers, IndexOf;
    var chunk := name + "=" + p;
    assert chunk == name + ['='] + p;
    FirstAt(name, '=', p);
    assert chunk[..|name|] == name && chunk[|name| + 1..] == p;
    assert TrimRight(p) == p;
  }

  lemma OneEntry(facs: seq<Fac>, masks: seq<nat>, chunk: string, end: string)
    requires |facs| == |masks| && chunk != "" && !IsBlank(chunk[0]) && ',' !in chunk && (end == "" || end == ",")
    ensures Parsed(facs, masks, chunk + end) == Apply(facs, masks, chunk, end == "")
  {
    hide Apply;
    assert SkipBlanks(chunk + end) == chunk + end;
    if end == "" {
      assert chunk + end == chunk;
      ParseLast(facs, masks, chunk);
    } else {
      assert chunk + end == chunk + ("," + "");
      ParseFirst(facs, masks, chunk, "");
      ParseLast(facs, Apply(facs, masks, chunk, false), "");
      assert Apply(facs, Apply(facs, masks, chunk, false), "", true) == Apply(facs, masks, chunk, false) by {
        EmptyEntry(facs, Apply(facs, masks, chunk, false), true);
      }
    }
  }

  lemma EmptyEntry(facs: seq<Fac>, masks: seq<nat>, last: bool)
    requires |facs| == |masks|
    ensures Apply(facs, masks, "", last) == masks
  {
  }

  /** Entries take effect one after another; the comma keeps the rest's blanks. */
  lemma EntriesInTurn(facs: seq<Fac>, masks: seq<nat>, chunk: string, rest: string)
    requires |facs| == |masks| && ',' !in chunk
    ensures Parsed(facs, masks, chunk + ("," + rest)) == Parsed(facs, Parsed(facs, masks, chunk + ","), "," + rest)
  {
    hide Apply, ParseAll;
    SkipsUpTo(chunk, rest);
    SkipsUpTo(chunk, "");
    var first := SkipBlanks(chunk);
    SkippedHas(chunk);
    assert "," + "" == ",";
    ParseFirst(facs, masks, first, rest);
    ParseFirst(facs, masks, first, "");
    var next := Apply(facs, masks, first, false);
    ParseLast(facs, next, "");
    EmptyEntry(facs, next, true);
    assert SkipBlanks("," + rest) == "," + rest;
    assert "," + rest == "" + ("," + rest);
    ParseFirst(facs, next, "", rest);
    EmptyEntry(facs, next, false);
  }

  lemma {:induction false} SkipsUpTo(chunk: string, rest: string)
    ensures SkipBlanks(chunk + ("," + rest)) == SkipBlanks(chunk) + ("," + rest)
  {
    var s := chunk + ("," + rest);
    if chunk != "" && IsBlank(chunk[0]) {
      assert s[1..] == chunk[1..] + ("," + rest);
      SkipsUpTo(chunk[1..], rest);
    } else if chunk == "" {
      assert s == "," + rest;
    }
  }

  lemma {:induction false} SkippedHas(s: string)
    ensures forall c :: c in SkipBlanks(s) ==> c in s
  {
    if s != "" && IsBlank(s[0]) { SkippedHas(s[1..]); }
  }

  /** Empty entries do nothing, and blanks around the text do not matter. */
  lemma Ignored(facs: seq<Fac>, masks: seq<nat>, s: string, c: char)
    requires |facs| == |masks|
    ensures Parsed(facs, masks, "") == masks
    ensures (s != "" ==> !IsBlank(s[0])) ==> Parsed(facs, masks, "," + s) == Parsed(facs, masks, s)
    ensures IsBlank(c) ==> Parsed(facs, masks, [c] + s) == Parsed(facs, masks, s)
    ensures IsBlank(c) || c == '\n' ==> Parsed(facs, masks, s + [c]) == Parsed(facs, masks, s)
  {
    hide Apply, ParseAll;
    ParseLast(facs, masks, "");
    EmptyEntry(facs, masks, true);
    EmptyEntry(facs, masks, false);
    assert "" + ("," + s) == "," + s;
    ParseFirst(facs, masks, "", s);
    assert ([c] + s)[1..] == s;
    if IsBlank(c) || c == '\n' { TrailingBlank(facs, masks, s, c); }
  }

  lemma {:induction false} TrailingBlank(facs: seq<Fac>, masks: seq<nat>, s: string, c: char)
    requires |facs| == |masks| && (IsBlank(c) || c == '\n')
    ensures Parsed(facs, masks, s + [c]) == Parsed(facs, masks, s)
  {
    hide Apply, ParseAll;
    if s == "" {
      LastBlank(facs, masks, "", c);
      ParseLast(facs, masks, "");
      if IsBlank(c) { assert ([c])[1..] == ""; assert s + [c] == [c]; }
      else { assert s + [c] == [c] && SkipBlanks([c]) == [c]; ParseLast(facs, masks, [c]); }
    } else if IsBlank(s[0]) {
      assert (s + [c])[1..] == s[1..] + [c];
      TrailingBlank(facs, masks, s[1..], c);
    } else {
      ParseTrailing(facs, masks, s, c);
    }
  }

  lemma {:induction false} ParseTrailing(facs: seq<Fac>, masks: seq<nat>, s: string, c: char)
    requires |facs| == |masks| && (IsBlank(c) || c == '\n')
    ensures ParseAll(facs, masks, s + [c]) == ParseAll(facs, masks, s)
    decreases |s|
  {
    hide Apply, ParseAll;
    var k := IndexOf(s, ',', 0);
    if k < |s| {
      var chunk, rest := s[..k], s[k + 1..];
      assert s == chunk + ("," + rest) && s + [c] == chunk + ("," + (rest + [c]));
      ParseFirst(facs, masks, chunk, rest);
      ParseFirst(facs, masks, chunk, rest + [c]);
      ParseTrailing(facs, Apply(facs, masks, chunk, false), rest, c);
    } else {
      ParseLast(facs, masks, s);
      ParseLast(facs, masks, s + [c]);
      LastBlank(facs, masks, s, c);
    }
  }

  lemma LastBlank(facs: seq<Fac>, masks: seq<nat>, chunk: string, c: char)
    requires |facs| == |masks| && (IsBlank(c) || c == '\n')
    ensures Apply(facs, masks, chunk + [c], true) == Apply(facs, masks, chunk, true)
  {
    if '=' in chunk { LastNamed(facs, masks, chunk, c); } else { LastNameless(facs, masks, chunk, c); }
  }

  lemma LastNamed(facs: seq<Fac>, masks: seq<nat>, chunk: string, c: char)
    requires |facs| == |masks| && (IsBlank(c) || c == '\n') && '=' in chunk
    ensures Apply(facs, masks, chunk + [c], true) == Apply(facs, masks, chunk, true)
  {
    hide Str2Pri, Lookup, TrimRight, IsBlank;
    var e := IndexOf(chunk, '=', 0);
    var name, p := chunk[..e], chunk[e + 1..];
    assert chunk == name + ['='] + p && chunk + [c] == name + ['='] + (p + [c]);
    FirstAt(name, '=', p + [c]);
    assert (chunk + [c])[..e] == name && (chunk + [c])[e + 1..] == p + [c];
    TrimOne(p, c);
  }

  lemma LastNameless(facs: seq<Fac>, masks: seq<nat>, chunk: string, c: char)
    requires |facs| == |masks| && (IsBlank(c) || c == '\n') && '=' !in chunk
    ensures Apply(facs, masks, chunk + [c], true) == Apply(facs, masks, chunk, true)
  {
    hide Str2Pri, Lookup, TrimRight;
    assert forall j :: 0 <= j < |chunk + [c]| ==> (chunk + [c])[j] != '=';
    TrimOne(chunk, c);
    if chunk == "" { NoPriority(); }
  }

  lemma NoPriority()
    ensures TrimRight("") == "" && Str2Pri("") == None
  {
    FindNone(NORM, "", 1);
    FindNone(DBG, "", 0);
  }

  lemma TrimOne(s: string, c: char)
    requires IsBlank(c) || c == '\n'
    ensures TrimRight(s + [c]) == TrimRight(s)
  {
    assert (s + [c])[..|s|] == s;
  }

  /** The printed text has one entry for each facility, in order. */
  lemma {:induction false} TextHasEntry(facs: seq<Fac>, masks: seq<nat>, k: nat, i: nat) returns (before: string)
    requires k <= i < |facs| == |masks|
    ensures TextFrom(facs, masks, k) == before + TextFrom(facs, masks, i)
    ensures if k == i then before == "" else before != "" && before[|before| - 1] == ','
    decreases i - k
  {
    hide Entry;
    if k == i {
      before := "";
    } else {
      var rest := TextHasEntry(facs, masks, k + 1, i);
      before := Entry(facs, masks, k) + ("," + rest);
      Joined(Entry(facs, masks, k), rest, TextFrom(facs, masks, i));
      assert before[|before| - 1] == if rest == "" then ',' else rest[|rest| - 1];
    }
  }

  lemma Joined(a: string, b: string, c: string)
    ensures a + ("," + (b + c)) == a + ("," + b) + c
  {
  }

  /** Its entry is the long name, or the short name if there is no long one, and
      the priority. */
  lemma EntryIs(facs: seq<Fac>, masks: seq<nat>, i: nat, name: string)
    requires i < |facs| == |masks|
    requires facs[i].lname == Some(name) || (facs[i].lname == None && facs[i].sname == Some(name))
    ensures TextFrom(facs, masks, i)
            == name + "=" + PriText(masks[i]) + if i + 1 < |facs| then "," + TextFrom(facs, masks, i + 1) else "\n"
  {
    hide PriText;
  }

  // ------------------------------------------------------------ as the source does it

  /** strcasecmp == 0, one character at a time. */
  method Compare(a: string, b: string) returns (same: bool)
    ensures same == SameName(a, b)
  {
    if |a| != |b| {
      return false;
    }
    for i := 0 to |a|
      invariant forall j :: 0 <= j < i ==> Lower(a[j]) == Lower(b[j])
    {
      if Lower(a[i]) != Lower(b[i]) {
        return false;
      }
    }
    return true;
  }

  method Search(table: seq<string>, p: string, start: nat) returns (r: Option<nat>)
    requires start <= |table|
    ensures r == Find(table, p, start)
  {
    for lcv := start to |table|
      invariant Find(table, p, lcv) == Find(table, p, start)
    {
      var same := Compare(p, table[lcv]);
      if same {
        return Some(lcv);
      }
    }
    return None;
  }

  /** mlog_str2pri. */
  method ParsePri(pstr: string) returns (r: Option<nat>)
    ensures r == Str2Pri(pstr)
  {
    if |pstr| > 5 {
      return None;
    }
    var same := Compare(pstr, "ERR");
    if same {
      return Some(4 * PRI);
    }
    same := Compare(pstr, "DEBUG");
    if same {
      return Some(15 * DPRI);
    }
    var ptmp := pstr;
    if |ptmp| > 0 && ptmp[0] == 'D' {
      while |ptmp| < 4
        invariant |pstr| <= |ptmp| && (|pstr| < 4 ==> |ptmp| <= 4) && (|pstr| >= 4 ==> ptmp == pstr)
        invariant |pstr| < 4 ==> ptmp == pstr + Dashes(|ptmp| - |pstr|)
      {
        ptmp := ptmp + "-";
      }
    }
    assert ptmp == Padded(pstr);
    var l := Search(NORM, ptmp, 1);
    if l.Some? {
      return Some(l.value * PRI);
    }
    var d := Search(DBG, ptmp, 0);
    if d.Some? {
      return Some(d.value * DPRI);
    }
    return None;
  }

  method FindFac(facs: seq<Fac>, name: string) returns (r: Option<nat>)
    ensures r == Lookup(facs, name, 0)
  {
    for facno := 0 to |facs|
      invariant Lookup(facs, name, facno) == Lookup(facs, name, 0)
    {
      var same := false;
      if facs[facno].sname.Some? {
        same := Compare(facs[facno].sname.value, name);
      }
      if !same && facs[facno].lname.Some? {
        same := Compare(facs[facno].lname.value, name);
      }
      if same {
        return Some(facno);
      }
    }
    return None;
  }

  method Scan(s: string, c: char) returns (k: nat)
    ensures k == IndexOf(s, c, 0)
  {
    k := 0;
    while k < |s| && s[k] != c
      invariant k <= |s| && IndexOf(s, c, k) == IndexOf(s, c, 0)
    {
      k := k + 1;
    }
  }

  /** One entry of mlog_setmasks. */
  method SetOne(facs: seq<Fac>, masks: array<nat>, chunk: string, last: bool)
    requires masks.Length == |facs|
    modifies masks
    ensures masks[..] == Apply(facs, old(masks[..]), chunk, last)
  {
    hide Str2Pri, Lookup;
    if chunk == "" {
      return;
    }
    var e := Scan(chunk, '=');
    var pri := if e < |chunk| then chunk[e + 1..] else chunk;
    if last {
      ghost var whole := pri;
      while pri != "" && (IsBlank(pri[|pri| - 1]) || pri[|pri| - 1] == '\n')
        invariant TrimRight(pri) == TrimRight(whole)
        decreases |pri|
      {
        pri := pri[..|pri| - 1];
      }
    }
    var m := ParsePri(pri);
    if m.None? {
      return;
    }
    if e < |chunk| {
      var facno := FindFac(facs, chunk[..e]);
      if facno.Some? {
        masks[facno.value] := m.value;
        assert masks[..] == old(masks[..])[facno.value := m.value];
      }
    } else {
      for facno := 0 to masks.Length
        invariant forall j :: 0 <= j < facno ==> masks[j] == m.value
      {
        masks[facno] := m.value;
      }
    }
  }

  /** mlog_setmasks. */
  method SetMasks(facs: seq<Fac>, masks: array<nat>, mstr: string)
    requires masks.Length == |facs|
    modifies masks
    ensures masks[..] == Parsed(facs, old(masks[..]), mstr)
  {
    hide Apply, IndexOf;
    var rest := mstr;
    while rest != "" && IsBlank(rest[0])
      invariant SkipBlanks(rest) == SkipBlanks(mstr)
      decreases |rest|
    {
      rest := rest[1..];
    }
    ghost var goal := Parsed(facs, masks[..], mstr);
    var more := true;
    while more
      invariant more ==> ParseAll(facs, masks[..], rest) == goal
      invariant !more ==> masks[..] == goal
      decreases more, |rest|
    {
      var clen := Scan(rest, ',');
      var chunk := rest[..clen];
      more := clen < |rest|;
      Whole(rest, clen);
      SetOne(facs, masks, chunk, !more);
      if more {
        rest := rest[clen + 1..];
      }
    }
  }

  lemma Whole(s: string, k: nat)
    requires k <= |s|
    ensures k == |s| ==> s[..k] == s
  {
  }

  // --- printing through a window

  /** What of s a caller with this discard count and buffer length gets. */
  function Window(s: string, discard: int, len: nat): string {
    var d := if discard <= 0 then 0 else if discard <= |s| then discard else |s|;
    var rest := s[d..];
    if |rest| <= len then rest else rest[..len]
  }

  lemma WindowGrows(s: string, c: char, discard: int, len: nat)
    ensures Window(s + [c], discard, len)
            == if discard > |s| || |Window(s, discard, len)| == len then Window(s, discard, len)
            else Window(s, discard, len) + [c]
  {
  }

  lemma WindowFits(s: string, discard: int, len: nat)
    ensures |Window(s, discard, len)| <= len && Window("", discard, len) == ""
  {
  }

  /** Where mlog_getmasks puts its output. */
  class Sink {
    const discard: int
    const len: nat
    var out: string
    var skip: int
    var resid: nat
    var total: nat
    ghost var text: string

    ghost predicate Valid()
      reads this
    {
      && out == Window(text, discard, len) && resid == len - |out| && total == |text|
      && skip == (if discard > |text| then discard - |text| else if discard > 0 then 0 else discard)
    }

    constructor (discard: int, len: nat)
      ensures Valid() && text == "" && this.discard == discard && this.len == len
    {
      this.discard, this.len, out, skip, resid, total, text := discard, len, "", discard, len, 0, "";
    }

    /** One character of mlog_bput. */
    method BputChar(c: char)
      requires Valid()
      modifies this
      ensures Valid() && text == old(text) + [c]
    {
      hide Window;
      WindowGrows(text, c, discard, len);
      WindowFits(text, discard, len);
      total := total + 1;
      text := text + [c];
      if skip > 0 {
        skip := skip - 1;
      } else if resid > 0 {
        out := out + [c];
        resid := resid - 1;
      }
    }

    /** mlog_bput: count every character, drop the first ones, keep what fits. */
    method Bput(s: string)
      requires Valid()
      modifies this
      ensures Valid() && text == old(text) + s
    {
      hide Valid, Window;
      for i := 0 to |s|
        invariant Valid() && text == old(text) + s[..i]
      {
        BputChar(s[i]);
      }
    }

    /** The priority of one mask, up to its first blank or dash. */
    method BputPri(mask: nat)
      requires Valid()
      modifies this
      ensures Valid() && text == old(text) + PriText(mask)
    {
      hide Valid, PriName;
      var p := PriName(mask);
      var i := 0;
      while i < |p| && p[i] != ' ' && p[i] != '-'
        invariant Valid() && i <= |p| && text == old(text) + p[..i] && CutAt(p, i) == CutAt(p, 0)
      {
        Bput([p[i]]);
        i := i + 1;
      }
    }
  }

  /** mlog_getmasks: the window of the full text the caller asked for, and the
      length of the full text. */
  method GetMasks(facs: seq<Fac>, masks: array<nat>, discard: int, len: nat, unterm: bool) returns (out: string,
    total: nat)
    requires masks.Length == |facs|
    ensures var full := TextFrom(facs, masks[..], 0) + (if unterm then "" else "\0");
            out == Window(full, discard, len) && total == |full|
  {
    hide TextFrom, Window;
    var sink := new Sink(discard, len);
    assert sink.text + Remaining(facs, masks[..], 0) == TextFrom(facs, masks[..],
                                                                 0) by { FirstRemaining(facs, masks[..]); }
    for facno := 0 to |facs|
      invariant sink.Valid() && fresh(sink) && sink.discard == discard && sink.len == len
      invariant sink.text + Remaining(facs, masks[..], facno) == TextFrom(facs, masks[..], 0)
    {
      ghost var before := sink.text;
      PutEntry(sink, facs, masks[..], facno);
      NextEntry(facs, masks[..], facno, before);
    }
    sink.Bput("\n");
    if !unterm {
      sink.Bput("\0");
    }
    assert TextFrom(facs, masks[..], 0) + "" == TextFrom(facs, masks[..], 0);
    out, total := sink.out, sink.total;
  }

  /** One facility's part of the text. */
  method PutEntry(sink: Sink, facs: seq<Fac>, masks: seq<nat>, facno: nat)
    requires sink.Valid() && facno < |facs| == |masks|
    modifies sink
    ensures sink.Valid() && sink.text == old(sink.text) + ((if facno != 0 then "," else "") + Entry(facs, masks, facno))
  {
    hide Window, PriText;
    if facno != 0 {
      sink.Bput(",");
    }
    sink.Bput(Printed(facs, facno));
    sink.Bput("=");
    sink.BputPri(masks[facno]);
  }

  lemma FirstRemaining(facs: seq<Fac>, masks: seq<nat>)
    requires |facs| == |masks|
    ensures "" + Remaining(facs, masks, 0) == TextFrom(facs, masks, 0)
  {
  }

  /** What is still to be printed before facility i. */
  ghost function Remaining(facs: seq<Fac>, masks: seq<nat>, i: nat): string
    requires i <= |facs| == |masks|
  {
    if i == |facs| then "\n" else (if i != 0 then "," else "") + TextFrom(facs, masks, i)
  }

  lemma NextEntry(facs: seq<Fac>, masks: seq<nat>, i: nat, before: string)
    requires i < |facs| == |masks|
    ensures before + ((if i != 0 then "," else "") + Entry(facs, masks, i)) + Remaining(facs, masks, i + 1)
            == before + Remaining(facs, masks, i)
  {
  }
}
