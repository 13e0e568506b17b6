/** A compiled cart's head and its imports (device/moycore_glue.py:629-734), read as the
    WebAssembly Core Specification encodes them: modules in section 5.5.2, sections in
    5.5.2, imports in 5.5.5, integers in 5.2.2. */
module Wasm {
  import opened Options
  import opened Sequences

  type Bytes = seq<byte>

  function Magic(): Bytes { [0, 0x61, 0x73, 0x6D] }

  function Moy(): Bytes { [0x6D, 0x6F, 0x79] }

  /** The bytes are those of the names. */
  lemma NamesSpelt()
    ensures |Moy()| == 3 && forall i :: 0 <= i < 3 ==> Moy()[i] as int == "moy"[i] as int
    ensures |Magic()| == 4 && Magic()[0] == 0 && forall i :: 0 <= i < 3 ==> Magic()[1 + i] as int == "asm"[i] as int
  {
  }

  /** Python's `b[i:j]`, which stops at the end. */
  function Slice(b: Bytes, i: nat, j: nat): (r: Bytes)
    requires i <= j
    ensures j <= |b| ==> r == b[i..j]
  {
    if i >= |b| then [] else if j > |b| then b[i..] else b[i..j]
  }

  // ---- reading ----

  /** The unsigned LEB128 at `i` and the index past it; None past the end. */
  function Uleb(b: Bytes, i: nat): (r: Option<(nat, nat)>)
    ensures r.Some? ==> i < r.value.1 <= |b|
    decreases |b| - i
  {
    if i >= |b| then None
    else if b[i] < 128 then Some((b[i], i + 1))
    else
      match Uleb(b, i + 1)
      case None => None
      case Some((v, j)) => Some((b[i] - 128 + 128 * v, j))
  }

  /** Past the limits at `i`: a flag, a minimum, and a maximum where the flag says so. */
  function PastLimits(b: Bytes, i: nat): (r: Option<nat>)
    ensures r.Some? ==> i < r.value <= |b|
  {
    if i >= |b| then None
    else
      match Uleb(b, i + 1)
      case None => None
      case Some((_, j)) =>
        if b[i] % 2 == 0 then Some(j)
        else match Uleb(b, j)
             case None => None
             case Some((_, k)) => Some(k)
  }

  datatype Entry = Entry(from: Bytes, name: Bytes, kind: byte)

  /** Past an import's description of kind `kind` at `i`. A global's two bytes are not
      looked at. */
  function PastDesc(b: Bytes, i: nat, kind: byte): (r: Option<nat>)
    requires i <= |b|
    ensures r.Some? ==> i <= r.value
  {
    if kind == 0 then
      match Uleb(b, i)
      case None => None
      case Some((_, j)) => Some(j)
    else if kind == 1 then PastLimits(b, i + 1)
    else if kind == 2 then PastLimits(b, i)
    else if kind == 3 then Some(i + 2)
    else None
  }

  /** A length and that many bytes; the bytes are short when the end comes first. */
  function Text(b: Bytes, i: nat): (r: Option<(Bytes, nat)>)
    ensures r.Some? ==> i < r.value.1
  {
    match Uleb(b, i)
    case None => None
    case Some((n, j)) => Some((Slice(b, j, j + n), j + n))
  }

  /** One import at `i`, and the index past it; None where it does not parse. */
  function ReadEntry(b: Bytes, i: nat): (r: Option<(Entry, nat)>)
    ensures r.Some? ==> i < r.value.1
  {
    match Text(b, i)
    case None => None
    case Some((from, j)) =>
      match Text(b, j)
      case None => None
      case Some((name, k)) =>
        if k >= |b| then None
        else
          match PastDesc(b, k + 1, b[k])
          case None => None
          case Some(next) => Some((Entry(from, name, b[k]), next))
  }

  /** What a name decodes to, or None: Python's strict UTF-8 decoder, taken as given. */
  type Decoder = Bytes -> Option<string>

  predicate Wanted(e: Entry) { e.kind == 0 && e.from == Moy() }

  /** `out` with one more missing name, if it is missing and not yet listed. */
  function Noted(out: seq<string>, name: string, table: set<string>): seq<string> {
    if name in table || name in out then out else out + [name]
  }

  /** `count` imports at `i`, until one does not parse or does not decode. */
  function Entries(b: Bytes, i: nat, count: nat, table: set<string>, dec: Decoder, out: seq<string>): seq<string>
    decreases count
  {
    if count == 0 then out
    else
      match ReadEntry(b, i)
      case None => out
      case Some((e, j)) =>
        if !Wanted(e) then Entries(b, j, count - 1, table, dec, out)
        else if dec(e.name).None? then out
        else Entries(b, j, count - 1, table, dec, Noted(out, dec(e.name).value, table))
  }

  /** Sections at `i`: those before the imports skipped, those after ending the scan. */
  function Sections(b: Bytes, i: nat, table: set<string>, dec: Decoder): seq<string>
    decreases |b| - i
  {
    if i >= |b| then []
    else
      match Uleb(b, i + 1)
      case None => []
      case Some((size, j)) =>
        if b[i] < 2 then Sections(b, j + size, table, dec)
        else if b[i] > 2 then []
        else
          match Uleb(b, j)
          case None => []
          case Some((count, k)) => Entries(b, k, count, table, dec, [])
  }

  function Missing(b: Bytes, table: set<string>, dec: Decoder): seq<string> {
    if |b| < 8 || b[..4] != Magic() then [] else Sections(b, 8, table, dec)
  }

  // ---- the loops ----

  /** `v | c << shift`, for `c` past every bit of `v`. */
  function Plus(v: nat, c: nat, p: nat): nat { v + c * p }

  /** What is read so far, `v`, and what is still to read, worth `p` times as much. */
  function Scaled(v: nat, p: nat, r: Option<(nat, nat)>): Option<(nat, nat)> {
    match r
    case None => None
    case Some((w, j)) => Some((v + p * w, j))
  }

  lemma ScaledStep(b: Bytes, i: nat, v: nat, p: nat)
    requires i < |b|
    ensures Scaled(v, p, Uleb(b, i))
            == if b[i] < 128 then Some((Plus(v, b[i], p), i + 1))
               else Scaled(Plus(v, b[i] - 128, p), 128 * p, Uleb(b, i + 1))
  {
    if b[i] >= 128 && Uleb(b, i + 1).Some? {
      PowStep(v, p, b[i] - 128, Uleb(b, i + 1).value.0);
    }
  }

  lemma PowStep(v: nat, p: nat, c: nat, rest: nat)
    ensures v + p * (c + 128 * rest) == (v + c * p) + (128 * p) * rest
  {
  }

  lemma ScaledOnce(r: Option<(nat, nat)>)
    ensures Scaled(0, 1, r) == r
  {
  }

  lemma ScaledNone(b: Bytes, i: nat, v: nat, p: nat)
    requires i >= |b|
    ensures Scaled(v, p, Uleb(b, i)) == None
  {
  }

  /** `_uleb`; None is the IndexError. */
  method ReadUleb(b: Bytes, at: nat) returns (r: Option<(nat, nat)>)
    ensures r == Uleb(b, at)
  {
    hide *;
    var i: nat, v: nat, p: nat := at, 0, 1;
    ScaledOnce(Uleb(b, at));
    while i < |b|
      invariant Uleb(b, at) == Scaled(v, p, Uleb(b, i))
    {
      ScaledStep(b, i, v, p);
      var c := b[i];
      i := i + 1;
      if c < 128 {
        return Some((Plus(v, c, p), i));
      }
      v := Plus(v, c - 128, p);
      p := 128 * p;
    }
    ScaledNone(b, i, v, p);
    return None;
  }

  /** `_limits`. */
  method ReadLimits(b: Bytes, at: nat) returns (r: Option<nat>)
    ensures r == PastLimits(b, at)
  {
    if at >= |b| {
      return None;
    }
    var least := ReadUleb(b, at + 1);
    if least.None? {
      return None;
    }
    r := Some(least.value.1);
    if b[at] % 2 == 1 {
      var most := ReadUleb(b, least.value.1);
      r := if most.None? then None else Some(most.value.1);
    }
  }

  method ReadText(b: Bytes, at: nat) returns (r: Option<(Bytes, nat)>)
    ensures r == Text(b, at)
  {
    var n := ReadUleb(b, at);
    r := if n.None? then None else Some((Slice(b, n.value.1, n.value.1 + n.value.0), n.value.1 + n.value.0));
  }

  method ReadDesc(b: Bytes, at: nat, kind: byte) returns (r: Option<nat>)
    requires at <= |b|
    ensures r == PastDesc(b, at, kind)
  {
    if kind == 0 {
      var n := ReadUleb(b, at);
      r := if n.None? then None else Some(n.value.1);
    } else if kind == 1 {
      r := ReadLimits(b, at + 1);
    } else if kind == 2 {
      r := ReadLimits(b, at);
    } else if kind == 3 {
      r := Some(at + 2);
    } else {
      r := None;
    }
  }

  method ReadImport(b: Bytes, at: nat) returns (r: Option<(Entry, nat)>)
    ensures r == ReadEntry(b, at)
  {
    var from := ReadText(b, at);
    if from.None? {
      return None;
    }
    var name := ReadText(b, from.value.1);
    if name.None? || name.value.1 >= |b| {
      return None;
    }
    var i := name.value.1;
    var next := ReadDesc(b, i + 1, b[i]);
    r := if next.None? then None else Some((Entry(from.value.0, name.value.0, b[i]), next.value));
  }

  lemma SectionsStep(b: Bytes, i: nat, table: set<string>, dec: Decoder)
    requires i < |b|
    ensures var size := Uleb(b, i + 1);
            Sections(b, i, table, dec) ==
            if size.None? || b[i] > 2 then []
            else if b[i] < 2 then Sections(b, size.value.1 + size.value.0, table, dec)
            else
              var count := Uleb(b, size.value.1);
              if count.None? then [] else Entries(b, count.value.1, count.value.0, table, dec, [])
  {
    hide Uleb, Entries;
  }

  /** `missing_imports`: terminates and answers on every bytes there are; an error inside
      answers what was read before it. */
  method MissingImports(head: Bytes, table: set<string>, dec: Decoder) returns (out: seq<string>)
    ensures out == Missing(head, table, dec)
  {
    hide Sections, Missing, Entries, Uleb;
    out := [];
    MissingStarts(head, table, dec);
    if |head| < 8 || head[..4] != Magic() {
      return;
    }
    var i := 8;
    while i < |head|
      invariant 8 <= i && out == [] && Missing(head, table, dec) == Sections(head, i, table, dec)
      decreases |head| - i
    {
      SectionsStep(head, i, table, dec);
      var size := ReadUleb(head, i + 1);
      if size.None? || head[i] > 2 {
        return;
      }
      if head[i] < 2 {
        i := size.value.1 + size.value.0;
      } else {
        var count := ReadUleb(head, size.value.1);
        if count.Some? {
          out := ReadEntries(head, count.value.1, count.value.0, table, dec);
        }
        return;
      }
    }
    SectionsStop(head, i, table, dec);
  }

  lemma MissingStarts(b: Bytes, table: set<string>, dec: Decoder)
    ensures Missing(b, table, dec) == if |b| < 8 || b[..4] != Magic() then [] else Sections(b, 8, table, dec)
  {
    hide Sections;
  }

  lemma SectionsStop(b: Bytes, i: nat, table: set<string>, dec: Decoder)
    requires i >= |b|
    ensures Sections(b, i, table, dec) == []
  {
  }

  method ReadEntries(head: Bytes, at: nat, count: nat, table: set<string>, dec: Decoder) returns (out: seq<string>)
    ensures out == Entries(head, at, count, table, dec, [])
  {
    out := [];
    var i := at;
    for k := 0 to count
      invariant Entries(head, at, count, table, dec, []) == Entries(head, i, count - k, table, dec, out)
    {
      var e := ReadImport(head, i);
      if e.None? {
        return;
      }
      i := e.value.1;
      if e.value.0.kind == 0 && e.value.0.from == Moy() {
        var name := dec(e.value.0.name);
        if name.None? {
          return;
        }
        if name.value !in table && name.value !in out {
          out := out + [name.value];
        }
      }
    }
  }

  // ---- the head of a module ----

  /** `f.read(n)` at `i`: short at the end. */
  function Read(f: Bytes, i: nat, n: nat): (r: Bytes)
    ensures |r| <= n && (i + n <= |f| ==> |r| == n) && (i <= |f| < i + n ==> |r| == |f| - i)
  {
    Slice(f, i, i + n)
  }

  /** Where the head of `f` ends, from a section's start at `i`. */
  function HeadEnd(f: Bytes, i: nat): (r: nat)
    requires i <= |f|
    ensures i <= r <= |f|
    decreases |f| - i
  {
    if i == |f| then i
    else
      match Uleb(f, i + 1)
      case None => |f|
      case Some((n, j)) =>
        if f[i] > 5 then j
        else if j + n > |f| then |f|
        else if f[i] == 5 then j + n
        else HeadEnd(f, j + n)
  }

  /** How much of the file `wasm_head` reads. */
  function HeadLen(f: Bytes): (n: nat)
    ensures n <= |f|
  {
    if Slice(Read(f, 0, 8), 0, 4) != Magic() then |Read(f, 0, 8)| else if |f| < 8 then |f| else HeadEnd(f, 8)
  }

  /** `wasm_head` of a file of these bytes: always a prefix of it. */
  function Head(f: Bytes): (r: Bytes)
    ensures r <= f
  {
    f[..HeadLen(f)]
  }

  /** The file object `wasm_head` reads: bytes and where it is in them. */
  class File {
    const bytes: Bytes
    var pos: nat

    constructor (bytes: Bytes)
      ensures this.bytes == bytes && pos == 0
    {
      this.bytes, pos := bytes, 0;
    }

    method ReadSome(n: nat) returns (r: Bytes)
      requires pos <= |bytes|
      modifies `pos
      ensures r == Read(bytes, old(pos), n) && pos == old(pos) + |r| && pos <= |bytes|
      ensures bytes[..pos] == bytes[..old(pos)] + r
    {
      r := Slice(bytes, pos, pos + n);
      pos := pos + |r|;
    }
  }

  /** A size read a byte at a time; None where the file ends inside it. */
  method ReadSize(f: File, data: Bytes) returns (n: Option<nat>, more: Bytes)
    requires f.pos <= |f.bytes| && data == f.bytes[..f.pos]
    modifies f`pos
    ensures f.pos <= |f.bytes| && more == f.bytes[..f.pos]
    ensures match Uleb(f.bytes, old(f.pos))
            case None => n == None && f.pos == |f.bytes|
            case Some((v, j)) => n == Some(v) && f.pos == j
  {
    hide *;
    ghost var at := f.pos;
    more := data;
    var v: nat, p: nat := 0, 1;
    ScaledOnce(Uleb(f.bytes, at));
    while true
      invariant at <= f.pos <= |f.bytes| && more == f.bytes[..f.pos]
      invariant Uleb(f.bytes, at) == Scaled(v, p, Uleb(f.bytes, f.pos))
      decreases |f.bytes| - f.pos
    {
      ghost var i := f.pos;
      var c := f.ReadSome(1);
      OneByte(f.bytes, i);
      if |c| == 0 {
        ScaledNone(f.bytes, i, v, p);
        return None, more;
      }
      ScaledStep(f.bytes, i, v, p);
      more := more + c;
      if c[0] < 128 {
        return Some(Plus(v, c[0], p)), more;
      }
      v := Plus(v, c[0] - 128, p);
      p := 128 * p;
    }
  }

  lemma OneByte(f: Bytes, i: nat)
    requires i <= |f|
    ensures Read(f, i, 1) == if i == |f| then [] else [f[i]]
  {
  }

  lemma HeadStep(f: Bytes, i: nat)
    requires i < |f|
    ensures var size := Uleb(f, i + 1);
            HeadEnd(f, i) ==
            if size.None? then |f|
            else if f[i] > 5 then size.value.1
            else if size.value.1 + size.value.0 > |f| then |f|
            else if f[i] == 5 then size.value.1 + size.value.0
            else HeadEnd(f, size.value.1 + size.value.0)
  {
    hide Uleb;
  }

  lemma HeadStarts(f: Bytes)
    ensures var first := Read(f, 0, 8);
            && |first| <= |f| && first == f[..|first|] && (|f| < 8 ==> |first| == |f|) && (|f| >= 8 ==> |first| == 8)
            && (Slice(first, 0, 4) != Magic() ==> HeadLen(f) == |first|)
            && (Slice(first, 0, 4) == Magic() ==> HeadLen(f) == HeadEnd(f, |first|))
    ensures Head(f) == f[..HeadLen(f)]
  {
    HeadAtEnd(f);
    assert f[0..] == f;
  }

  lemma HeadAtEnd(f: Bytes)
    ensures HeadEnd(f, |f|) == |f|
  {
  }

  /** `wasm_head`. */
  method WasmHead(f: File) returns (data: Bytes)
    requires f.pos == 0
    modifies f`pos
    ensures data == Head(f.bytes)
  {
    hide *;
    HeadStarts(f.bytes);
    HeadAtEnd(f.bytes);
    data := f.ReadSome(8);
    if Slice(data, 0, 4) != Magic() {
      return;
    }
    while true
      invariant f.pos <= |f.bytes| && data == f.bytes[..f.pos]
      invariant HeadLen(f.bytes) == HeadEnd(f.bytes, f.pos)
      decreases |f.bytes| - f.pos
    {
      OneByte(f.bytes, f.pos);
      var sid := f.ReadSome(1);
      if sid == [] {
        return;
      }
      HeadStep(f.bytes, f.pos - 1);
      data := data + sid;
      var n;
      n, data := ReadSize(f, data);
      if n.None? || sid[0] > 5 {
        return;
      }
      var body := f.ReadSome(n.value);
      data := data + body;
      if sid[0] == 5 || |body| < n.value {
        return;
      }
    }
  }

  // ---- encoded modules ----

  /** An unsigned LEB128, of however many bytes. */
  predicate IsLeb(s: Bytes) {
    |s| >= 1 && if |s| == 1 then s[0] < 128 else s[0] >= 128 && IsLeb(s[1..])
  }

  function LebValue(s: Bytes): nat
    requires IsLeb(s)
  {
    if |s| == 1 then s[0] else s[0] - 128 + 128 * LebValue(s[1..])
  }

  /** The shortest encoding of `n`. */
  function LebOf(n: nat): (s: Bytes)
    ensures IsLeb(s) && LebValue(s) == n
  {
    if n < 128 then [n] else [n % 128 + 128] + LebOf(n / 128)
  }

  predicate At(b: Bytes, i: nat, s: Bytes) {
    i + |s| <= |b| && b[i..i + |s|] == s
  }

  lemma AtParts(b: Bytes, i: nat, s: Bytes, t: Bytes)
    requires At(b, i, s + t)
    ensures At(b, i, s) && At(b, i + |s|, t)
  {
    assert b[i..i + |s|] == b[i..i + |s + t|][..|s|] == s;
    assert b[i + |s|..i + |s| + |t|] == b[i..i + |s + t|][|s|..] == t;
  }

  lemma AtEnds(b: Bytes, i: nat, s: Bytes)
    requires At(b, i, s)
    ensures i + |s| <= |b|
  {
  }

  lemma AtFirst(b: Bytes, i: nat, x: byte)
    requires At(b, i, [x])
    ensures i < |b| && b[i] == x
  {
    assert b[i..i + 1][0] == x;
  }

  lemma {:induction false} UlebAt(b: Bytes, i: nat, s: Bytes)
    requires At(b, i, s) && IsLeb(s)
    ensures Uleb(b, i) == Some((LebValue(s), i + |s|))
    decreases |s|
  {
    assert b[i] == s[0];
    if |s| > 1 {
      assert s == [s[0]] + s[1..];
      AtParts(b, i, [s[0]], s[1..]);
      UlebAt(b, i + 1, s[1..]);
    }
  }

  datatype Limits = Limits(flags: byte, least: Bytes, most: Bytes)

  datatype Desc =
    | Func(index: Bytes)
    | Table(elem: byte, limits: Limits)
    | Memory(limits: Limits)
    | Global(val: byte, mut: byte)

  datatype Import = Import(fromLen: Bytes, from: Bytes, nameLen: Bytes, name: Bytes, desc: Desc)

  predicate LimitsOk(l: Limits) {
    IsLeb(l.least) && if l.flags % 2 == 1 then IsLeb(l.most) else l.most == []
  }

  function EncLimits(l: Limits): Bytes { [l.flags] + (l.least + l.most) }

  predicate DescOk(d: Desc) {
    match d
    case Func(index) => IsLeb(index)
    case Table(_, l) => LimitsOk(l)
    case Memory(l) => LimitsOk(l)
    case Global(_, _) => true
  }

  function Kind(d: Desc): byte {
    match d
    case Func(_) => 0
    case Table(_, _) => 1
    case Memory(_) => 2
    case Global(_, _) => 3
  }

  function EncDesc(d: Desc): Bytes {
    match d
    case Func(index) => index
    case Table(elem, l) => [elem] + EncLimits(l)
    case Memory(l) => EncLimits(l)
    case Global(val, mut) => [val, mut]
  }

  predicate Measures(len: Bytes, s: Bytes) { IsLeb(len) && LebValue(len) == |s| }

  predicate ImportOk(m: Import) {
    Measures(m.fromLen, m.from) && Measures(m.nameLen, m.name) && DescOk(m.desc)
  }

  function EncImport(m: Import): Bytes {
    (m.fromLen + m.from) + ((m.nameLen + m.name) + ([Kind(m.desc)] + EncDesc(m.desc)))
  }

  predicate AllOk(ms: seq<Import>) { forall k :: 0 <= k < |ms| ==> ImportOk(ms[k]) }

  function EncImports(ms: seq<Import>): Bytes {
    if ms == [] then [] else EncImport(ms[0]) + EncImports(ms[1..])
  }

  lemma LimitsAt(b: Bytes, i: nat, l: Limits)
    requires LimitsOk(l) && At(b, i, EncLimits(l))
    ensures PastLimits(b, i) == Some(i + |EncLimits(l)|)
  {
    hide Uleb, At, IsLeb, LebValue;
    AtParts(b, i, [l.flags], l.least + l.most);
    AtParts(b, i + 1, l.least, l.most);
    UlebAt(b, i + 1, l.least);
    AtFirst(b, i, l.flags);
    if l.flags % 2 == 1 {
      UlebAt(b, i + 1 + |l.least|, l.most);
    }
  }

  lemma DescAt(b: Bytes, i: nat, d: Desc)
    requires DescOk(d) && At(b, i, EncDesc(d))
    ensures PastDesc(b, i, Kind(d)) == Some(i + |EncDesc(d)|)
  {
    match d
    case Func(index) => UlebAt(b, i, index);
    case Table(elem, l) =>
      AtParts(b, i, [elem], EncLimits(l));
      LimitsAt(b, i + 1, l);
    case Memory(l) => LimitsAt(b, i, l);
    case Global(_, _) =>
  }

  lemma TextAt(b: Bytes, i: nat, len: Bytes, s: Bytes)
    requires Measures(len, s) && At(b, i, len + s)
    ensures Text(b, i) == Some((s, i + |len + s|))
  {
    AtParts(b, i, len, s);
    UlebAt(b, i, len);
    hide Uleb;
  }

  lemma EntryAt(b: Bytes, i: nat, m: Import)
    requires ImportOk(m) && At(b, i, EncImport(m))
    ensures ReadEntry(b, i) == Some((Entry(m.from, m.name, Kind(m.desc)), i + |EncImport(m)|))
  {
    hide Text, PastDesc, EncDesc, At, Kind, DescOk, Measures;
    var d := [Kind(m.desc)] + EncDesc(m.desc);
    AtParts(b, i, m.fromLen + m.from, (m.nameLen + m.name) + d);
    TextAt(b, i, m.fromLen, m.from);
    var j := i + |m.fromLen + m.from|;
    AtParts(b, j, m.nameLen + m.name, d);
    TextAt(b, j, m.nameLen, m.name);
    var k := j + |m.nameLen + m.name|;
    AtParts(b, k, [Kind(m.desc)], EncDesc(m.desc));
    AtFirst(b, k, Kind(m.desc));
    DescAt(b, k + 1, m.desc);
  }

  // ---- what the scan is to answer ----

  predicate IsMoy(m: Import) { m.desc.Func? && m.from == [0x6D, 0x6F, 0x79] }

  /** The functions imported from "moy", in order, before the first whose name does not
      decode. */
  function MoyNames(ms: seq<Import>, dec: Decoder): seq<string> {
    if ms == [] then []
    else if !IsMoy(ms[0]) then MoyNames(ms[1..], dec)
    else if dec(ms[0].name).None? then []
    else [dec(ms[0].name).value] + MoyNames(ms[1..], dec)
  }

  /** `r` is the names not in `table`, each once, in the order they first come. */
  ghost predicate FirstMissing(r: seq<string>, names: seq<string>, table: set<string>) {
    && (forall i, j :: 0 <= i < j < |r| ==> r[i] != r[j])
    && (forall x :: x in r <==> x in names && x !in table)
    && (forall i, j :: 0 <= i < j < |r| ==> First(names, r[i]) < First(names, r[j]))
  }

  /** One more name leaves the answer right. */
  lemma NotedIsFirst(out: seq<string>, names: seq<string>, table: set<string>, x: string)
    requires FirstMissing(out, names, table)
    ensures FirstMissing(Noted(out, x, table), names + [x], table)
  {
    var r := Noted(out, x, table);
    forall i | 0 <= i < |out| ensures First(names + [x], out[i]) == First(names, out[i]) {
      FirstInPrefix(names, [x], out[i]);
    }
    if r != out {
      assert x !in names;
      FirstAfter(names, x);
    }
    hide First;
  }

  /** The names noted one after another. */
  function Collect(names: seq<string>, table: set<string>, out: seq<string>): seq<string> {
    if names == [] then out else Collect(names[1..], table, Noted(out, names[0], table))
  }

  lemma CollectStep(names: seq<string>, table: set<string>, out: seq<string>)
    ensures Collect(names, table, out)
            == if names == [] then out else Collect(names[1..], table, Noted(out, names[0], table))
  {
    hide Noted;
  }

  lemma OneThenRest<T>(done: seq<T>, s: seq<T>)
    ensures s != [] ==> done + [s[0]] + s[1..] == done + s
    ensures s == [] ==> done + s == done
  {
  }

  lemma {:induction false} CollectIsFirst(names: seq<string>, table: set<string>, out: seq<string>, done: seq<string>)
    requires FirstMissing(out, done, table)
    ensures FirstMissing(Collect(names, table, out), done + names, table)
    decreases |names|
  {
    hide *;
    CollectStep(names, table, out);
    OneThenRest(done, names);
    if names != [] {
      NotedIsFirst(out, done, table, names[0]);
      CollectIsFirst(names[1..], table, Noted(out, names[0], table), done + [names[0]]);
    }
  }

  lemma EntriesUnfold(b: Bytes, i: nat, count: nat, e: Entry, j: nat, table: set<string>, dec: Decoder, out: seq<string>)
    requires count > 0 && ReadEntry(b, i) == Some((e, j))
    ensures Entries(b, i, count, table, dec, out) ==
            if Wanted(e) && dec(e.name).None? then out
            else Entries(b, j, count - 1, table, dec, if Wanted(e) then Noted(out, dec(e.name).value, table) else out)
  {
    hide ReadEntry, Noted;
  }

  lemma NamesUnfold(ms: seq<Import>, dec: Decoder)
    requires ms != []
    ensures MoyNames(ms, dec)
            == if !IsMoy(ms[0]) then MoyNames(ms[1..], dec)
               else if dec(ms[0].name).None? then [] else [dec(ms[0].name).value] + MoyNames(ms[1..], dec)
    ensures Wanted(Entry(ms[0].from, ms[0].name, Kind(ms[0].desc))) == IsMoy(ms[0])
  {
  }

  lemma {:induction false} EntriesCollect(b: Bytes, i: nat, ms: seq<Import>, table: set<string>, dec: Decoder,
                                          out: seq<string>)
    requires AllOk(ms) && At(b, i, EncImports(ms))
    ensures Entries(b, i, |ms|, table, dec, out) == Collect(MoyNames(ms, dec), table, out)
    decreases |ms|
  {
    hide *;
    if ms == [] {
      NoEntries(b, i, table, dec, out);
    } else {
      var j := i + |EncImport(ms[0])|;
      ImportsSplit(b, i, ms);
      EntryAt(b, i, ms[0]);
      EntriesUnfold(b, i, |ms|, Entry(ms[0].from, ms[0].name, Kind(ms[0].desc)), j, table, dec, out);
      NamesUnfold(ms, dec);
      CollectStep(MoyNames(ms, dec), table, out);
      if !IsMoy(ms[0]) {
        EntriesCollect(b, j, ms[1..], table, dec, out);
      } else if dec(ms[0].name).Some? {
        EntriesCollect(b, j, ms[1..], table, dec, Noted(out, dec(ms[0].name).value, table));
      }
    }
  }

  lemma NoEntries(b: Bytes, i: nat, table: set<string>, dec: Decoder, out: seq<string>)
    ensures Entries(b, i, 0, table, dec, out) == Collect(MoyNames([], dec), table, out)
  {
  }

  lemma ImportsSplit(b: Bytes, i: nat, ms: seq<Import>)
    requires AllOk(ms) && ms != [] && At(b, i, EncImports(ms))
    ensures ImportOk(ms[0]) && AllOk(ms[1..])
    ensures At(b, i, EncImport(ms[0])) && At(b, i + |EncImport(ms[0])|, EncImports(ms[1..]))
  {
    AtParts(b, i, EncImport(ms[0]), EncImports(ms[1..]));
    hide At, EncImport, ImportOk;
  }

  datatype Section = Section(id: byte, size: Bytes, body: Bytes)

  predicate SectionOk(s: Section) { Measures(s.size, s.body) }

  function EncSection(s: Section): Bytes { [s.id] + (s.size + s.body) }

  /** Sections, then `tail`. */
  function EncSections(ss: seq<Section>, tail: Bytes): Bytes {
    if ss == [] then tail else EncSection(ss[0]) + EncSections(ss[1..], tail)
  }

  function Width(ss: seq<Section>): nat {
    if ss == [] then 0 else |EncSection(ss[0])| + Width(ss[1..])
  }

  /** An import section: its size and how many imports, which fill it. */
  datatype ImportSection = ImportSection(size: Bytes, count: Bytes, entries: seq<Import>)

  predicate ImportsOk(s: ImportSection) {
    Measures(s.size, s.count + EncImports(s.entries)) && IsLeb(s.count) && LebValue(s.count) == |s.entries| && AllOk(s.entries)
  }

  function AsSection(s: ImportSection): Section { Section(2, s.size, s.count + EncImports(s.entries)) }

  /** A module: its version, the sections before the imports (custom and type), the imports
      if it has any, and the rest of the file. */
  datatype Module = Module(version: Bytes, before: seq<Section>, imports: Option<ImportSection>, rest: Bytes)

  predicate AllBefore(ss: seq<Section>) {
    forall k :: 0 <= k < |ss| ==> SectionOk(ss[k]) && ss[k].id < 2
  }

  predicate ModuleOk(m: Module) {
    && |m.version| == 4 && AllBefore(m.before)
    && (m.imports.Some? ==> ImportsOk(m.imports.value))
    && (m.imports.None? ==> m.rest == [] || m.rest[0] > 2)
  }

  function EncTail(m: Module): Bytes {
    if m.imports.Some? then EncSection(AsSection(m.imports.value)) + m.rest else m.rest
  }

  function EncModule(m: Module): Bytes {
    ([0x00, 0x61, 0x73, 0x6D] + m.version) + EncSections(m.before, EncTail(m))
  }

  function ImportsOf(m: Module): seq<Import> {
    if m.imports.Some? then m.imports.value.entries else []
  }

  lemma SectionAt(b: Bytes, i: nat, s: Section)
    requires SectionOk(s) && At(b, i, EncSection(s))
    ensures i < |b| && b[i] == s.id && Uleb(b, i + 1) == Some((|s.body|, i + 1 + |s.size|))
    ensures At(b, i + 1 + |s.size|, s.body) && i + |EncSection(s)| == i + 1 + |s.size| + |s.body|
    ensures i + |EncSection(s)| <= |b|
  {
    hide *;
    SectionParts(s);
    AtEnds(b, i, EncSection(s));
    AtParts(b, i, [s.id], s.size + s.body);
    AtParts(b, i + 1, s.size, s.body);
    UlebAt(b, i + 1, s.size);
    AtFirst(b, i, s.id);
  }

  lemma SectionParts(s: Section)
    requires SectionOk(s)
    ensures EncSection(s) == [s.id] + (s.size + s.body) && IsLeb(s.size) && LebValue(s.size) == |s.body|
  {
    hide IsLeb, LebValue;
  }

  lemma SkipSection(b: Bytes, i: nat, s: Section, table: set<string>, dec: Decoder)
    requires SectionOk(s) && s.id < 2 && At(b, i, EncSection(s))
    ensures Sections(b, i, table, dec) == Sections(b, i + |EncSection(s)|, table, dec)
    ensures i + |EncSection(s)| <= |b| && HeadEnd(b, i) == HeadEnd(b, i + |EncSection(s)|)
  {
    hide *;
    SectionAt(b, i, s);
    SectionsStep(b, i, table, dec);
    HeadStep(b, i);
  }

  lemma SectionsUnfold(ss: seq<Section>, tail: Bytes)
    requires AllBefore(ss) && ss != []
    ensures EncSections(ss, tail) == EncSection(ss[0]) + EncSections(ss[1..], tail)
    ensures Width(ss) == |EncSection(ss[0])| + Width(ss[1..])
    ensures SectionOk(ss[0]) && ss[0].id < 2 && AllBefore(ss[1..])
  {
  }

  lemma NoSections(tail: Bytes)
    ensures EncSections([], tail) == tail && Width([]) == 0
  {
  }

  lemma {:induction false} SkipSections(b: Bytes, i: nat, ss: seq<Section>, tail: Bytes, table: set<string>, dec: Decoder)
    requires AllBefore(ss) && At(b, i, EncSections(ss, tail)) && i <= |b|
    ensures i + Width(ss) <= |b| && At(b, i + Width(ss), tail)
    ensures Sections(b, i, table, dec) == Sections(b, i + Width(ss), table, dec)
    ensures HeadEnd(b, i) == HeadEnd(b, i + Width(ss))
    decreases |ss|
  {
    hide *;
    if ss == [] {
      NoSections(tail);
    } else {
      SectionsUnfold(ss, tail);
      AtParts(b, i, EncSection(ss[0]), EncSections(ss[1..], tail));
      SkipSection(b, i, ss[0], table, dec);
      SkipSections(b, i + |EncSection(ss[0])|, ss[1..], tail, table, dec);
    }
  }

  /** The import section read. */
  lemma ImportsAt(b: Bytes, i: nat, s: ImportSection, table: set<string>, dec: Decoder)
    requires ImportsOk(s) && At(b, i, EncSection(AsSection(s)))
    ensures Sections(b, i, table, dec) == Collect(MoyNames(s.entries, dec), table, [])
    ensures i + |EncSection(AsSection(s))| <= |b| && HeadEnd(b, i) == HeadEnd(b, i + |EncSection(AsSection(s))|)
  {
    hide *;
    ImportsUnfold(s);
    var j := i + 1 + |s.size|;
    SectionAt(b, i, AsSection(s));
    AtParts(b, j, s.count, EncImports(s.entries));
    UlebAt(b, j, s.count);
    SectionsStep(b, i, table, dec);
    HeadStep(b, i);
    EntriesCollect(b, j + |s.count|, s.entries, table, dec, []);
  }

  lemma ImportsUnfold(s: ImportSection)
    requires ImportsOk(s)
    ensures var t := AsSection(s);
            SectionOk(t) && t.id == 2 && t.size == s.size && t.body == s.count + EncImports(s.entries)
    ensures IsLeb(s.count) && LebValue(s.count) == |s.entries| && AllOk(s.entries)
  {
  }

  lemma NoImportsAt(b: Bytes, i: nat, rest: Bytes, table: set<string>, dec: Decoder)
    requires At(b, i, rest) && |b| == i + |rest| && (rest == [] || rest[0] > 2)
    ensures Sections(b, i, table, dec) == []
  {
    if rest != [] {
      assert b[i..i + |rest|][0] == rest[0];
      SectionsStep(b, i, table, dec);
    }
  }

  lemma WholeAt(b: Bytes)
    ensures At(b, 0, b)
  {
  }

  lemma {:induction false} SectionsEnd(ss: seq<Section>, tail: Bytes)
    ensures |EncSections(ss, tail)| == Width(ss) + |tail|
  {
    if ss != [] {
      SectionsEnd(ss[1..], tail);
    }
  }

  /** Where a module's parts are. */
  lemma ModuleAt(m: Module)
    requires ModuleOk(m)
    ensures var b := EncModule(m);
            && b[..4] == Magic() && |b| == 8 + Width(m.before) + |EncTail(m)|
            && At(b, 8, EncSections(m.before, EncTail(m)))
  {
    var b := EncModule(m);
    WholeAt(b);
    AtParts(b, 0, Magic() + m.version, EncSections(m.before, EncTail(m)));
    AtParts(b, 0, Magic(), m.version);
    assert b[..4] == b[0..4] == Magic();
    SectionsEnd(m.before, EncTail(m));
  }

  /** The scan of an encoded module, and how far its head at least goes. */
  lemma ScanCollects(m: Module, table: set<string>, dec: Decoder)
    requires ModuleOk(m)
    ensures Missing(EncModule(m), table, dec) == Collect(MoyNames(ImportsOf(m), dec), table, [])
    ensures HeadEnd(EncModule(m), 8) >= |EncModule(m)| - |m.rest|
    ensures m.imports.None? && m.rest != [] ==> HeadEnd(EncModule(m), 8) > |EncModule(m)| - |m.rest|
  {
    hide *;
    var b := EncModule(m);
    ModuleUnfold(m);
    ModuleAt(m);
    MissingIs(b, table, dec);
    SkipSections(b, 8, m.before, EncTail(m), table, dec);
    var i := 8 + Width(m.before);
    if m.imports.Some? {
      AtParts(b, i, EncSection(AsSection(m.imports.value)), m.rest);
      ImportsAt(b, i, m.imports.value, table, dec);
    } else {
      NoImportsAt(b, i, m.rest, table, dec);
      NothingCollected(table, dec);
      if m.rest != [] {
        FirstOfRest(b, i, m.rest);
      }
    }
  }

  lemma ModuleUnfold(m: Module)
    requires ModuleOk(m)
    ensures AllBefore(m.before) && (m.imports.None? ==> m.rest == [] || m.rest[0] > 2)
    ensures m.imports.Some? ==> ImportsOk(m.imports.value)
                                && EncTail(m) == EncSection(AsSection(m.imports.value)) + m.rest
    ensures m.imports.None? ==> EncTail(m) == m.rest
    ensures ImportsOf(m) == if m.imports.Some? then m.imports.value.entries else []
  {
    hide AllBefore, ImportsOk, EncSection;
  }

  lemma MissingIs(b: Bytes, table: set<string>, dec: Decoder)
    requires |b| >= 8 && b[..4] == Magic()
    ensures Missing(b, table, dec) == Sections(b, 8, table, dec)
  {
  }

  lemma NothingCollected(table: set<string>, dec: Decoder)
    ensures Collect(MoyNames([], dec), table, []) == []
  {
  }

  lemma FirstOfRest(b: Bytes, i: nat, rest: Bytes)
    requires At(b, i, rest) && rest != [] && rest[0] > 2
    ensures HeadEnd(b, i) > i
  {
    assert b[i..i + |rest|][0] == rest[0];
    HeadStep(b, i);
  }

  /** The scan of an encoded module answers the first occurrences, in order, of the functions
      it imports from "moy" that the table lacks. */
  lemma ScanIsRight(m: Module, table: set<string>, dec: Decoder)
    requires ModuleOk(m)
    ensures FirstMissing(Missing(EncModule(m), table, dec), MoyNames(ImportsOf(m), dec), table)
  {
    ScanCollects(m, table, dec);
    var names := MoyNames(ImportsOf(m), dec);
    CollectIsFirst(names, table, [], []);
    assert [] + names == names;
  }

  // ---- the short read ----

  lemma {:induction false} SectionsThenTail(ss: seq<Section>, t: Bytes, u: Bytes)
    ensures EncSections(ss, t + u) == EncSections(ss, t) + u
  {
    if ss != [] {
      SectionsThenTail(ss[1..], t, u);
      Assoc(EncSection(ss[0]), EncSections(ss[1..], t), u);
    }
  }

  lemma Assoc(a: Bytes, b: Bytes, c: Bytes)
    ensures a + (b + c) == (a + b) + c
  {
  }

  function Fore(m: Module): Bytes { EncModule(m.(rest := [])) }

  lemma ForeThenRest(m: Module)
    ensures EncModule(m) == Fore(m) + m.rest
  {
    var t := EncTail(m.(rest := []));
    assert EncTail(m) == t + m.rest;
    SectionsThenTail(m.before, t, m.rest);
    Assoc(Magic() + m.version, EncSections(m.before, t), m.rest);
  }

  /** The head of an encoded module is the module but for the end of its rest. */
  lemma HeadIsModule(m: Module, table: set<string>, dec: Decoder) returns (r: Bytes)
    requires ModuleOk(m)
    ensures ModuleOk(m.(rest := r)) && Head(EncModule(m)) == EncModule(m.(rest := r))
  {
    hide *;
    var f := EncModule(m);
    ModuleAt(m);
    ScanCollects(m, table, dec);
    HeadOfModule(f);
    ForeThenRest(m);
    HeadIs(f);
    CutAfter(Fore(m), m.rest, HeadLen(f));
    r := m.rest[..HeadLen(f) - |Fore(m)|];
    RestReplaced(m, r);
    ForeThenRest(m.(rest := r));
  }

  lemma HeadIs(f: Bytes)
    ensures HeadLen(f) <= |f| && Head(f) == f[..HeadLen(f)]
  {
  }

  lemma CutAfter(a: Bytes, b: Bytes, n: nat)
    requires |a| <= n <= |a + b|
    ensures (a + b)[..n] == a + b[..n - |a|]
  {
  }

  /** What follows the imports of a module may be cut short anywhere, but not to a start of
      something else. */
  lemma RestReplaced(m: Module, r: Bytes)
    requires ModuleOk(m) && r <= m.rest
    ensures ModuleOk(m.(rest := r)) && Fore(m.(rest := r)) == Fore(m)
  {
    hide AllBefore, ImportsOk, EncModule;
  }

  lemma HeadOfModule(f: Bytes)
    requires |f| >= 8 && f[..4] == Magic()
    ensures HeadLen(f) == HeadEnd(f, 8)
  {
    HeadStarts(f);
    assert f[0..8] == f[..8] && f[..8][0..4] == f[..4];
  }

  /** The short read loses nothing: a module's head answers as the whole module does. */
  lemma HeadIsEnough(m: Module, table: set<string>, dec: Decoder)
    requires ModuleOk(m)
    ensures Missing(Head(EncModule(m)), table, dec) == Missing(EncModule(m), table, dec)
  {
    var r := HeadIsModule(m, table, dec);
    ScanCollects(m, table, dec);
    ScanCollects(m.(rest := r), table, dec);
    hide Missing, Head, EncModule, ModuleOk, HeadEnd, Collect, MoyNames;
  }

  // ---- any bytes, cut short ----

  lemma {:induction false} UlebShort(p: Bytes, f: Bytes, i: nat)
    requires p <= f && Uleb(p, i).Some?
    ensures Uleb(f, i) == Uleb(p, i)
    decreases |p| - i
  {
    if p[i] >= 128 {
      UlebShort(p, f, i + 1);
    }
  }

  lemma LimitsShort(p: Bytes, f: Bytes, i: nat)
    requires p <= f && PastLimits(p, i).Some?
    ensures PastLimits(f, i) == PastLimits(p, i)
  {
    hide Uleb;
    UlebShort(p, f, i + 1);
    if p[i] % 2 == 1 {
      UlebShort(p, f, Uleb(p, i + 1).value.1);
    }
  }

  lemma DescShort(p: Bytes, f: Bytes, i: nat, kind: byte)
    requires p <= f && i <= |p| && PastDesc(p, i, kind).Some?
    ensures PastDesc(f, i, kind) == PastDesc(p, i, kind)
  {
    hide Uleb, PastLimits;
    if kind == 0 {
      UlebShort(p, f, i);
    } else if kind == 1 {
      LimitsShort(p, f, i + 1);
    } else if kind == 2 {
      LimitsShort(p, f, i);
    }
  }

  lemma TextShort(p: Bytes, f: Bytes, i: nat)
    requires p <= f && Text(p, i).Some? && Text(p, i).value.1 <= |p|
    ensures Text(f, i) == Text(p, i)
  {
    hide Uleb;
    UlebShort(p, f, i);
    var (n, j) := Uleb(p, i).value;
    assert p[j..j + n] == f[j..j + n];
  }

  /** An import read whole from fewer bytes is the same import. */
  lemma EntryShort(p: Bytes, f: Bytes, i: nat)
    requires p <= f && ReadEntry(p, i).Some?
    ensures ReadEntry(f, i) == ReadEntry(p, i)
  {
    hide Text, PastDesc;
    var j := Text(p, i).value.1;
    var k := Text(p, j).value.1;
    TextShort(p, f, j);
    TextShort(p, f, i);
    DescShort(p, f, k + 1, p[k]);
  }

  lemma {:induction false} EntriesGrow(b: Bytes, i: nat, count: nat, table: set<string>, dec: Decoder, out: seq<string>)
    ensures out <= Entries(b, i, count, table, dec, out)
    decreases count
  {
    hide ReadEntry;
    if count > 0 && ReadEntry(b, i).Some? {
      var (e, j) := ReadEntry(b, i).value;
      if !Wanted(e) {
        EntriesGrow(b, j, count - 1, table, dec, out);
      } else if dec(e.name).Some? {
        EntriesGrow(b, j, count - 1, table, dec, Noted(out, dec(e.name).value, table));
      }
    }
  }

  lemma {:induction false} EntriesShort(p: Bytes, f: Bytes, i: nat, count: nat, table: set<string>, dec: Decoder,
                                        out: seq<string>)
    requires p <= f
    ensures Entries(p, i, count, table, dec, out) <= Entries(f, i, count, table, dec, out)
    decreases count
  {
    hide ReadEntry, Noted;
    if count > 0 {
      if ReadEntry(p, i).None? {
        EntriesGrow(f, i, count, table, dec, out);
      } else {
        EntryShort(p, f, i);
        var (e, j) := ReadEntry(p, i).value;
        if !Wanted(e) {
          EntriesShort(p, f, j, count - 1, table, dec, out);
        } else if dec(e.name).Some? {
          EntriesShort(p, f, j, count - 1, table, dec, Noted(out, dec(e.name).value, table));
        }
      }
    }
  }

  lemma {:induction false} SectionsShort(p: Bytes, f: Bytes, i: nat, table: set<string>, dec: Decoder)
    requires p <= f
    ensures Sections(p, i, table, dec) <= Sections(f, i, table, dec)
    decreases |p| - i
  {
    if i < |p| && Uleb(p, i + 1).Some? {
      UlebShort(p, f, i + 1);
      SectionsStep(p, i, table, dec);
      SectionsStep(f, i, table, dec);
      var (size, j) := Uleb(p, i + 1).value;
      hide Sections, Uleb, Entries;
      if p[i] < 2 {
        SectionsShort(p, f, j + size, table, dec);
      } else if p[i] == 2 && Uleb(p, j).Some? {
        UlebShort(p, f, j);
        EntriesShort(p, f, Uleb(p, j).value.1, Uleb(p, j).value.0, table, dec, []);
      }
    }
  }

  /** Whatever the bytes, cutting them short can only cut the answer short: no name is
      reported that the whole would not report, and none out of order. */
  lemma ShortAnswersLess(p: Bytes, f: Bytes, table: set<string>, dec: Decoder)
    requires p <= f
    ensures Missing(p, table, dec) <= Missing(f, table, dec)
  {
    if |p| >= 8 {
      assert p[..4] == f[..4];
      SectionsShort(p, f, 8, table, dec);
    }
    hide Sections;
  }

  // ---- any bytes, read to the head's end ----

  lemma {:induction false} UlebLong(p: Bytes, f: Bytes, i: nat)
    requires p <= f && Uleb(f, i).Some? && Uleb(f, i).value.1 <= |p|
    ensures Uleb(p, i) == Uleb(f, i)
    decreases |f| - i
  {
    if f[i] >= 128 {
      UlebLong(p, f, i + 1);
    }
  }

  lemma LimitsLong(p: Bytes, f: Bytes, i: nat)
    requires p <= f && PastLimits(f, i).Some? && PastLimits(f, i).value <= |p|
    ensures PastLimits(p, i) == PastLimits(f, i)
  {
    hide Uleb;
    UlebLong(p, f, i + 1);
    if f[i] % 2 != 0 {
      UlebLong(p, f, Uleb(f, i + 1).value.1);
    }
  }

  lemma DescLong(p: Bytes, f: Bytes, i: nat, kind: byte)
    requires p <= f && i <= |p| && PastDesc(f, i, kind).Some? && PastDesc(f, i, kind).value <= |p|
    ensures PastDesc(p, i, kind) == PastDesc(f, i, kind)
  {
    hide Uleb, PastLimits;
    if kind == 0 {
      UlebLong(p, f, i);
    } else if kind == 1 {
      LimitsLong(p, f, i + 1);
    } else if kind == 2 {
      LimitsLong(p, f, i);
    }
  }

  lemma TextLong(p: Bytes, f: Bytes, i: nat)
    requires p <= f && Text(f, i).Some? && Text(f, i).value.1 <= |p|
    ensures Text(p, i) == Text(f, i)
  {
    hide Uleb;
    UlebLong(p, f, i);
    var (n, j) := Uleb(f, i).value;
    assert p[j..j + n] == f[j..j + n];
  }

  /** An import that ends within fewer bytes is read whole from them. */
  lemma EntryLong(p: Bytes, f: Bytes, i: nat)
    requires p <= f && ReadEntry(f, i).Some? && ReadEntry(f, i).value.1 <= |p|
    ensures ReadEntry(p, i) == ReadEntry(f, i)
  {
    hide Text, PastDesc;
    var j := Text(f, i).value.1;
    var k := Text(f, j).value.1;
    TextLong(p, f, j);
    TextLong(p, f, i);
    DescLong(p, f, k + 1, f[k]);
  }

  /** The imports counted, as far as they parse, end by `end`. */
  predicate EntriesInside(f: Bytes, i: nat, count: nat, end: nat)
    decreases count
  {
    count == 0 || ReadEntry(f, i).None?
    || (ReadEntry(f, i).value.1 <= end && EntriesInside(f, ReadEntry(f, i).value.1, count - 1, end))
  }

  /** From a section's start at `i`: the first import section, if it is reached, holds the
      imports it counts. */
  predicate ImportsInside(f: Bytes, i: nat)
    decreases |f| - i
  {
    if i >= |f| || Uleb(f, i + 1).None? then true
    else
      var (size, j) := Uleb(f, i + 1).value;
      if f[i] < 2 then ImportsInside(f, j + size)
      else f[i] == 2 && Uleb(f, j).Some? ==> EntriesInside(f, Uleb(f, j).value.1, Uleb(f, j).value.0, j + size)
  }

  lemma {:induction false} EntriesKept(p: Bytes, f: Bytes, i: nat, count: nat, end: nat, table: set<string>, dec: Decoder,
                                       out: seq<string>)
    requires p <= f && end <= |p| && EntriesInside(f, i, count, end)
    ensures Entries(p, i, count, table, dec, out) == Entries(f, i, count, table, dec, out)
    decreases count
  {
    hide ReadEntry, Noted;
    if count > 0 {
      if ReadEntry(f, i).None? {
        if ReadEntry(p, i).Some? {
          EntryShort(p, f, i);
        }
      } else {
        EntryLong(p, f, i);
        var (e, j) := ReadEntry(f, i).value;
        if !Wanted(e) {
          EntriesKept(p, f, j, count - 1, end, table, dec, out);
        } else if dec(e.name).Some? {
          EntriesKept(p, f, j, count - 1, end, table, dec, Noted(out, dec(e.name).value, table));
        }
      }
    }
  }

  /** A count, and the imports after it, read the same to the section's end. */
  lemma CountKept(p: Bytes, f: Bytes, j: nat, end: nat, table: set<string>, dec: Decoder)
    requires p <= f && end <= |p|
    requires Uleb(f, j).Some? ==> EntriesInside(f, Uleb(f, j).value.1, Uleb(f, j).value.0, end)
    ensures var a, b := Uleb(p, j), Uleb(f, j);
            (if a.None? then [] else Entries(p, a.value.1, a.value.0, table, dec, []))
            == if b.None? then [] else Entries(f, b.value.1, b.value.0, table, dec, [])
  {
    hide Uleb, ReadEntry, Noted;
    if Uleb(p, j).Some? {
      UlebShort(p, f, j);
      EntriesKept(p, f, Uleb(f, j).value.1, Uleb(f, j).value.0, end, table, dec, []);
    } else if Uleb(f, j).Some? && Uleb(f, j).value.1 <= |p| {
      UlebLong(p, f, j);
    }
  }

  lemma InsideStep(f: Bytes, i: nat)
    requires i < |f| && Uleb(f, i + 1).Some? && ImportsInside(f, i)
    ensures var (size, j) := Uleb(f, i + 1).value;
            && (f[i] < 2 ==> ImportsInside(f, j + size))
            && (f[i] == 2 && Uleb(f, j).Some? ==> EntriesInside(f, Uleb(f, j).value.1, Uleb(f, j).value.0, j + size))
  {
    hide Uleb, EntriesInside;
  }

  lemma {:induction false} SectionsKept(p: Bytes, f: Bytes, i: nat, table: set<string>, dec: Decoder)
    requires p <= f && i <= |f| && |p| == HeadEnd(f, i) && ImportsInside(f, i)
    ensures Sections(p, i, table, dec) == Sections(f, i, table, dec)
    decreases |f| - i
  {
    hide *;
    if p != f {
      Longer(p, f);
      HeadAtEnd(f);
      HeadStep(f, i);
      var (size, j) := Uleb(f, i + 1).value;
      InsideStep(f, i);
      UlebLong(p, f, i + 1);
      SectionsStep(p, i, table, dec);
      SectionsStep(f, i, table, dec);
      if f[i] < 2 {
        SectionsKept(p, f, j + size, table, dec);
      } else if f[i] == 2 {
        CountKept(p, f, j, j + size, table, dec);
      }
    }
  }

  lemma Longer(p: Bytes, f: Bytes)
    requires p <= f && p != f
    ensures |p| < |f|
  {
  }

  /** The short read loses nothing on any bytes whose import section, if the scan comes to one,
      holds the imports it counts. */
  lemma HeadAnswers(f: Bytes, table: set<string>, dec: Decoder)
    requires |f| >= 8 && f[..4] == Magic() ==> ImportsInside(f, 8)
    ensures Missing(Head(f), table, dec) == Missing(f, table, dec)
  {
    hide *;
    var p := Head(f);
    HeadIs(f);
    HeadStarts(f);
    MissingStarts(p, table, dec);
    MissingStarts(f, table, dec);
    if |f| >= 8 {
      if f[..4] == Magic() {
        HeadOfModule(f);
        assert p[..4] == f[..4];
        SectionsKept(p, f, 8, table, dec);
      } else {
        assert |p| >= 4 ==> p[..4] == f[..4];
      }
    }
  }
}
