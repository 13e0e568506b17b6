/** The diagnostic ring (device/moybyte_diag.py:78-183): lines kept as their parts, bounded
    in number and in bytes, the oldest dropped first. */
module DiagRing {
  import opened Options
  import opened Decimals
  import opened Sequences

  /** A line's parts; one appended already formatted has no stamp. */
  datatype Entry = Entry(t: Option<int>, tag: string, msg: string)

  // ---- a line as it will read ----

  function Despaced(c: char): char { if c == '\r' || c == '\n' then ' ' else c }

  function Collapse(s: string): (r: string)
    ensures |r| == |s| && forall i :: 0 <= i < |s| ==> r[i] == Despaced(s[i])
  {
    seq(|s|, i requires 0 <= i < |s| => Despaced(s[i]))
  }

  /** `format_line` of a stamped line: one line, whatever its parts hold. */
  function FormatLine(t: int, tag: string, msg: string): (r: string)
    ensures '\n' !in r
  {
    var line := Decimal(t) + " " + tag + " " + msg;
    if '\n' in line then Collapse(line) else line
  }

  /** The stamp, the tag and the message, a space between them; the ends of lines in them, if
      there is a newline, as spaces. */
  lemma FormatLineIs(t: int, tag: string, msg: string)
    ensures var line, r := Decimal(t) + [' '] + tag + [' '] + msg, FormatLine(t, tag, msg);
            && |r| == |line|
            && forall i :: 0 <= i < |line| ==>
                 r[i] == if '\n' in line && (line[i] == '\n' || line[i] == '\r') then ' ' else line[i]
  {
    hide Decimal;
  }

  function Render(e: Entry): string {
    match e.t
    case None => e.msg
    case Some(t) => FormatLine(t, e.tag, e.msg)
  }

  function RenderAll(es: seq<Entry>): (r: seq<string>)
    ensures |r| == |es| && forall i :: 0 <= i < |es| ==> r[i] == Render(es[i])
  {
    seq(|es|, i requires 0 <= i < |es| => Render(es[i]))
  }

  /** `"\n".join(lines)`. */
  function Join(lines: seq<string>): string {
    if lines == [] then "" else if |lines| == 1 then lines[0] else lines[0] + "\n" + Join(lines[1..])
  }

  /** A text cut at its newlines. */
  function Split(s: string): seq<string> {
    if '\n' in s then [s[..First(s, '\n')]] + Split(s[First(s, '\n') + 1..]) else [s]
  }

  /** Lines joined are the lines, in order, when the text is cut again. */
  lemma {:induction false} SplitUndoesJoin(lines: seq<string>)
    requires lines != [] && forall i :: 0 <= i < |lines| ==> '\n' !in lines[i]
    ensures Split(Join(lines)) == lines
  {
    if |lines| == 1 {
      assert lines == [lines[0]];
    } else {
      SplitUndoesJoin(lines[1..]);
      SplitOne(lines[0], Join(lines[1..]));
      hide Split;
      assert lines == [lines[0]] + lines[1..];
    }
  }

  lemma SplitOne(a: string, t: string)
    requires '\n' !in a
    ensures Split(a + "\n" + t) == [a] + Split(t)
  {
    var s := a + "\n" + t;
    assert s[..|a|] == a && s[|a|] == '\n' && s[|a| + 1..] == t;
    FirstIs(s, '\n', |a|);
  }

  /** What a line costs: itself and a newline. */
  function Cost(e: Entry): nat { |Render(e)| + 1 }

  function Total(es: seq<Entry>): nat {
    if es == [] then 0 else Cost(es[0]) + Total(es[1..])
  }

  lemma {:induction false} TotalAppend(es: seq<Entry>, e: Entry)
    ensures Total(es + [e]) == Total(es) + Cost(e)
  {
    if es == [] {
      assert [] + [e] == [e] && [e][1..] == [];
    } else {
      TotalAppend(es[1..], e);
      assert (es + [e])[1..] == es[1..] + [e];
    }
  }

  /** The costs of some lines are the length of their text and one, if there are any. */
  lemma {:induction false} TotalIsText(es: seq<Entry>)
    ensures Total(es) == if es == [] then 0 else |Join(RenderAll(es))| + 1
  {
    if |es| > 1 {
      TotalIsText(es[1..]);
      assert RenderAll(es)[1..] == RenderAll(es[1..]);
    } else if |es| == 1 {
      assert es[1..] == [];
    }
  }

  /** Digits counted by dividing. */
  lemma {:induction false} DigitsCounted(t: nat)
    ensures |Digits(t)| == if t < 10 then 1 else 1 + |Digits(t / 10)|
  {
  }

  /** `_size`: what the line costs, without formatting it. */
  method Size(e: Entry) returns (n: nat)
    ensures n == Cost(e)
  {
    if e.t.None? {
      return |e.msg| + 1;
    }
    var t := e.t.value;
    n := 1;
    if t < 0 {
      n := 2;
      t := -t;
    }
    ghost var whole: nat := t;
    ghost var sign := if e.t.value < 0 then 1 else 0;
    while t >= 10
      invariant 0 <= t && n >= 1 && n - 1 + |Digits(t)| == sign + |Digits(whole)|
    {
      DigitsCounted(t);
      t := t / 10;
      n := n + 1;
    }
    DigitsCounted(t);
    n := n + |e.tag| + |e.msg| + 3;
  }

  // ---- what is kept ----

  predicate Fits(es: seq<Entry>, lines: int, bytes: int) {
    |es| <= lines && Total(es) <= bytes
  }

  /** The longest end of a log that fits both bounds; its last line alone where even that is
      too long; nothing where not one line may be kept. */
  function Kept(log: seq<Entry>, lines: int, bytes: int): seq<Entry> {
    if log == [] || Fits(log, lines, bytes) || (|log| == 1 && lines >= 1) then log else Kept(log[1..], lines, bytes)
  }

  predicate Affordable(es: seq<Entry>, lines: int, bytes: int) {
    (|es| <= lines && Total(es) <= bytes) || (|es| == 1 && lines >= 1)
  }

  lemma {:induction false} LongerCosts(es: seq<Entry>, k: nat)
    requires k <= |es|
    ensures Total(es[k..]) <= Total(es)
  {
    if k > 0 {
      LongerCosts(es[1..], k - 1);
      assert es[1..][k - 1..] == es[k..];
    } else {
      assert es[0..] == es;
    }
  }

  /** `Kept` is the longest affordable end: an end of the log, affordable unless empty, and
      no longer end is. */
  lemma {:induction false} KeptIsLongest(log: seq<Entry>, lines: int, bytes: int)
    ensures var r := Kept(log, lines, bytes);
            && |r| <= |log| && r == log[|log| - |r|..]
            && (r == [] || Affordable(r, lines, bytes))
            && forall k :: 0 <= k < |log| - |r| ==> !Affordable(log[k..], lines, bytes)
  {
    var r := Kept(log, lines, bytes);
    if log != [] && !Affordable(log, lines, bytes) {
      KeptIsLongest(log[1..], lines, bytes);
      assert log[1..][|log| - 1 - |r|..] == log[|log| - |r|..];
      forall k | 0 <= k < |log| - |r| ensures !Affordable(log[k..], lines, bytes) {
        if k == 0 {
          assert log[0..] == log;
        } else {
          assert log[1..][k - 1..] == log[k..];
        }
      }
    } else {
      assert log[0..] == log;
    }
  }

  /** What has been dropped would never be kept again: a new line is trimmed with what was
      kept as it would be with the whole log. */
  lemma {:induction false} KeptGrows(log: seq<Entry>, e: Entry, lines: int, bytes: int)
    ensures Kept(log + [e], lines, bytes) == Kept(Kept(log, lines, bytes) + [e], lines, bytes)
  {
    if log == [] || Fits(log, lines, bytes) || (|log| == 1 && lines >= 1) {
    } else {
      KeptGrows(log[1..], e, lines, bytes);
      TotalAppend(log, e);
      assert (log + [e])[1..] == log[1..] + [e];
    }
  }

  function Zip(ts: seq<Option<int>>, tags: seq<string>, msgs: seq<string>): (es: seq<Entry>)
    requires |ts| == |tags| == |msgs|
    ensures |es| == |ts| && forall i :: 0 <= i < |es| ==> es[i] == Entry(ts[i], tags[i], msgs[i])
  {
    seq(|ts|, i requires 0 <= i < |ts| => Entry(ts[i], tags[i], msgs[i]))
  }

  class Ring {
    const maxLines: int
    const maxBytes: int
    // The lines' parts, in three parallel lists, and their cost.
    var ts: seq<Option<int>>
    var tags: seq<string>
    var msgs: seq<string>
    var bytes: int
    /** Everything logged since the ring was last cleared. */
    ghost var log: seq<Entry>

    predicate Parallel()
      reads `ts, `tags, `msgs
    {
      |ts| == |tags| == |msgs|
    }

    function Entries(): seq<Entry>
      requires Parallel()
      reads `ts, `tags, `msgs
    {
      Zip(ts, tags, msgs)
    }

    /** The ring is the longest affordable end of everything logged, and its count of bytes is
        their cost. */
    ghost predicate Valid()
      reads this
    {
      Parallel() && Entries() == Kept(log, maxLines, maxBytes) && bytes == Total(Entries())
    }

    constructor (maxLines: int, maxBytes: int)
      ensures Valid() && log == [] && this.maxLines == maxLines && this.maxBytes == maxBytes
    {
      this.maxLines, this.maxBytes := maxLines, maxBytes;
      ts, tags, msgs, bytes, log := [], [], [], 0, [];
    }

    /** `append`: a line already formatted. */
    method Append(line: string)
      requires Valid()
      modifies this
      ensures Valid() && log == old(log) + [Entry(None, "", line)]
    {
      Push(Entry(None, "", line));
    }

    /** `add`: a line as its parts. */
    method Add(t: int, tag: string, msg: string)
      requires Valid()
      modifies this
      ensures Valid() && log == old(log) + [Entry(Some(t), tag, msg)]
    {
      Push(Entry(Some(t), tag, msg));
    }

    method Push(e: Entry)
      requires Valid()
      modifies this
      ensures Valid() && log == old(log) + [e]
    {
      KeptGrows(log, e, maxLines, maxBytes);
      TotalAppend(Entries(), e);
      ghost var was := Entries();
      ts, tags, msgs := ts + [e.t], tags + [e.tag], msgs + [e.msg];
      var size := Size(e);
      bytes := bytes + size;
      log := log + [e];
      assert Entries() == was + [e];
      Trim();
    }

    /** `_trim`: the oldest dropped until both bounds hold, the last line kept if any may be. */
    method Trim()
      requires Parallel() && bytes == Total(Entries())
      modifies `ts, `tags, `msgs, `bytes
      ensures Parallel() && Entries() == Kept(old(Entries()), maxLines, maxBytes) && bytes == Total(Entries())
    {
      ghost var was := Entries();
      while |msgs| > maxLines && msgs != []
        invariant Parallel() && bytes == Total(Entries())
        invariant Kept(Entries(), maxLines, maxBytes) == Kept(was, maxLines, maxBytes)
        decreases |msgs|
      {
        Drop();
      }
      while bytes > maxBytes && |msgs| > 1
        invariant Parallel() && bytes == Total(Entries())
        invariant Kept(Entries(), maxLines, maxBytes) == Kept(was, maxLines, maxBytes)
        invariant |msgs| <= maxLines || msgs == []
        decreases |msgs|
      {
        Drop();
      }
    }

    method Drop()
      requires Parallel() && ts != [] && bytes == Total(Entries())
      modifies `ts, `tags, `msgs, `bytes
      ensures Parallel() && Entries() == old(Entries())[1..] && bytes == Total(Entries())
    {
      ghost var was := Entries();
      var e := Entry(ts[0], tags[0], msgs[0]);
      ts, tags, msgs := ts[1..], tags[1..], msgs[1..];
      var size := Size(e);
      bytes := bytes - size;
      assert Entries() == was[1..];
    }

    /** `lines`. */
    method Lines() returns (out: seq<string>)
      requires Parallel()
      ensures out == RenderAll(Entries())
    {
      out := [];
      ghost var es := Entries();
      for i := 0 to |msgs|
        invariant |out| == i && forall k :: 0 <= k < i ==> out[k] == RenderAll(es)[k]
      {
        hide FormatLine;
        out := out + [if ts[i].None? then msgs[i] else FormatLine(ts[i].value, tags[i], msgs[i])];
      }
    }

    /** `text`: and the count of bytes is its length and one, unless the ring is empty. */
    method Text() returns (text: string)
      requires Valid()
      ensures text == Join(RenderAll(Kept(log, maxLines, maxBytes)))
      ensures bytes == if Kept(log, maxLines, maxBytes) == [] then 0 else |text| + 1
    {
      TotalIsText(Entries());
      var lines := Lines();
      text := Join(lines);
    }

    /** `clear`. */
    method Clear()
      requires Valid()
      modifies this
      ensures Valid() && log == []
    {
      ts, tags, msgs, bytes, log := [], [], [], 0, [];
    }
  }
}
