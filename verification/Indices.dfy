/** A framebuffer read back to palette indices (device/device_canvas.py:330-397). */
module Indices {
  import opened Options
  import opened Sequences

  /** The word an index draws: the table's 64, then the shell's block. */
  function WordOf(wire: seq<nat>, block: seq<nat>, i: nat): nat
    requires |wire| == |block| == 64 && i < 128
  {
    if i < 64 then wire[i] else block[i - 64]
  }

  /** The index a word reads as: the table's lowest, else the block's lowest. */
  function IndexOf(wire: seq<nat>, block: seq<nat>, w: nat): (i: Option<nat>)
    requires |wire| == |block| == 64
  {
    if w in wire then Some(First(wire, w)) else if w in block then Some(64 + First(block, w)) else None
  }

  function Word(buf: seq<byte>, i: nat): nat
    requires 2 * i + 1 < |buf|
  {
    (buf[2 * i] as int) + 256 * (buf[2 * i + 1] as int)
  }

  /** A pixel's word is its two bytes, low byte first. */
  lemma WordIs(low: byte, high: byte)
    ensures Word([low, high], 0) == low + 256 * high
  {
  }

  datatype Read = Indexed(out: seq<nat>) | Unknown(pixel: nat, word: nat)

  // ---- the reverse table ----

  method ReverseOf(wire: seq<nat>, block: seq<nat>) returns (rev: map<nat, nat>)
    requires |wire| == |block| == 64
    ensures forall w :: w in rev <==> IndexOf(wire, block, w).Some?
    ensures forall w :: w in rev ==> rev[w] == IndexOf(wire, block, w).value
  {
    var base: map<nat, nat> := map[];
    for i := 64 downto 0
      invariant Reverses(base, wire, i)
    {
      ReversesOneMore(base, wire, i);
      base := base[wire[i] := i];
    }
    var blk := map[];
    for i := 64 downto 0
      invariant forall w :: w in blk <==> w in block[i..] && w !in base
      invariant forall w :: w in blk ==> w in block[i..] && blk[w] == 64 + i + First(block[i..], w)
    {
      assert block[i..] == [block[i]] + block[i + 1..];
      if block[i] !in base {
        blk := blk[block[i] := 64 + i];
      }
    }
    assert block[0..] == block && wire[0..] == wire;
    rev := base + blk;
  }

  /** `m` sends each word of `s` from `i` on to the lowest place from there it comes. */
  ghost predicate Reverses(m: map<nat, nat>, s: seq<nat>, i: nat) {
    && i <= |s|
    && (forall w :: w in m <==> w in s[i..])
    && (forall w :: w in m ==> w in s[i..] && m[w] == i + First(s[i..], w))
  }

  lemma ReversesOneMore(m: map<nat, nat>, s: seq<nat>, i: nat)
    requires i < |s| && Reverses(m, s, i + 1)
    ensures Reverses(m[s[i] := i], s, i)
  {
    assert s[i..] == [s[i]] + s[i + 1..];
  }

  // ---- the read ----

  /** The first `n` pixels' words all have indices. */
  ghost predicate AllKnown(wire: seq<nat>, block: seq<nat>, buf: seq<byte>, n: nat)
    requires |wire| == |block| == 64 && 2 * n <= |buf|
  {
    forall i :: 0 <= i < n ==> IndexOf(wire, block, Word(buf, i)).Some?
  }

  /** `to_indices`. A strict read answers when every pixel's word has an index, and the first
      pixel of none otherwise; a lax one reads those as 0. */
  method ToIndices(buf: seq<byte>, wire: seq<nat>, block: seq<nat>, strict: bool) returns (r: Read)
    requires |wire| == |block| == 64
    ensures r.Indexed? <==> !strict || AllKnown(wire, block, buf, |buf| / 2)
    ensures r.Indexed? ==> |r.out| == |buf| / 2 && forall i :: 0 <= i < |buf| / 2 ==>
              r.out[i] == var x := IndexOf(wire, block, Word(buf, i)); if x.Some? then x.value else 0
    ensures r.Unknown? ==> r.pixel < |buf| / 2 && AllKnown(wire, block, buf, r.pixel) && r.word == Word(buf, r.pixel)
                           && IndexOf(wire, block, r.word).None?
  {
    var rev := ReverseOf(wire, block);
    var n := |buf| / 2;
    var out: seq<nat> := [];
    hide IndexOf;
    for i := 0 to n
      invariant |out| == i && (strict ==> AllKnown(wire, block, buf, i))
      invariant forall k :: 0 <= k < i ==>
                  out[k] == var x := IndexOf(wire, block, Word(buf, k)); if x.Some? then x.value else 0
    {
      var w: nat := (buf[2 * i] as int) + 256 * (buf[2 * i + 1] as int);
      assert w == Word(buf, i);
      if w !in rev {
        if strict {
          return Unknown(i, w);
        }
        out := out + [0];
      } else {
        out := out + [rev[w]];
      }
    }
    return Indexed(out);
  }

  // ---- what it means ----

  /** A read index draws the word it was read from, is the lowest that does, and is the
      block's only where the table has no such word. */
  lemma IndexDraws(wire: seq<nat>, block: seq<nat>, w: nat)
    requires |wire| == |block| == 64 && IndexOf(wire, block, w).Some?
    ensures var i := IndexOf(wire, block, w).value;
            && i < 128 && WordOf(wire, block, i) == w
            && (forall j :: 0 <= j < i ==> WordOf(wire, block, j) != w)
            && (i >= 64 ==> w !in wire)
  {
    var i := IndexOf(wire, block, w).value;
    forall j | 0 <= j < i ensures WordOf(wire, block, j) != w {
      if j < 64 && i < 64 {
        assert wire[..i][j] == wire[j];
      } else if j >= 64 {
        assert block[..i - 64][j - 64] == block[j - 64];
      }
    }
  }

  ghost predicate Injective(s: seq<nat>) { forall i, j :: 0 <= i < j < |s| ==> s[i] != s[j] }

  /** Reading inverts drawing for every table index exactly when no word is in the table
      twice. */
  lemma TableInverts(wire: seq<nat>, block: seq<nat>)
    requires |wire| == |block| == 64
    ensures (forall i :: 0 <= i < 64 ==> IndexOf(wire, block, WordOf(wire, block, i)) == Some(i)) <==> Injective(wire)
  {
    if Injective(wire) {
      forall i | 0 <= i < 64 ensures IndexOf(wire, block, WordOf(wire, block, i)) == Some(i) {
        FirstIs(wire, wire[i], i);
      }
    }
    if forall i :: 0 <= i < 64 ==> IndexOf(wire, block, WordOf(wire, block, i)) == Some(i) {
      forall i, j | 0 <= i < j < 64 ensures wire[i] != wire[j] {
        assert IndexOf(wire, block, WordOf(wire, block, i)) == Some(i);
        assert IndexOf(wire, block, WordOf(wire, block, j)) == Some(j);
      }
    }
  }

  /** And for every block index exactly when the block repeats no word of its own or the
      table's. */
  lemma BlockInverts(wire: seq<nat>, block: seq<nat>)
    requires |wire| == |block| == 64
    ensures (forall i :: 64 <= i < 128 ==> IndexOf(wire, block, WordOf(wire, block, i)) == Some(i))
            <==> Injective(block) && forall i :: 0 <= i < 64 ==> block[i] !in wire
  {
    if Injective(block) && forall i :: 0 <= i < 64 ==> block[i] !in wire {
      forall i | 64 <= i < 128 ensures IndexOf(wire, block, WordOf(wire, block, i)) == Some(i) {
        FirstIs(block, block[i - 64], i - 64);
      }
    }
    if forall i :: 64 <= i < 128 ==> IndexOf(wire, block, WordOf(wire, block, i)) == Some(i) {
      forall i | 0 <= i < 64 ensures block[i] !in wire {
        assert IndexOf(wire, block, WordOf(wire, block, 64 + i)) == Some(64 + i);
      }
      forall i, j | 0 <= i < j < 64 ensures block[i] != block[j] {
        assert IndexOf(wire, block, WordOf(wire, block, 64 + i)) == Some(64 + i);
        assert IndexOf(wire, block, WordOf(wire, block, 64 + j)) == Some(64 + j);
      }
    }
  }

  /** A frame of words, low byte first. */
  function Bytes(words: seq<nat>): seq<byte>
    requires forall i :: 0 <= i < |words| ==> words[i] < 0x10000
  {
    if words == [] then [] else [words[0] % 256, words[0] / 256] + Bytes(words[1..])
  }

  lemma {:induction false} BytesRead(words: seq<nat>)
    requires forall i :: 0 <= i < |words| ==> words[i] < 0x10000
    ensures |Bytes(words)| == 2 * |words| && forall i :: 0 <= i < |words| ==> Word(Bytes(words), i) == words[i]
  {
    if words != [] {
      BytesRead(words[1..]);
      forall i | 0 <= i < |words| ensures Word(Bytes(words), i) == words[i] {
        if i > 0 {
          assert Word(Bytes(words), i) == Word(Bytes(words[1..]), i - 1);
        }
      }
    }
  }

  /** A frame drawn in table indices reads back as those indices, given no word twice. */
  lemma FrameReadsBack(wire: seq<nat>, block: seq<nat>, idx: seq<nat>)
    requires |wire| == |block| == 64 && Injective(wire) && forall i :: 0 <= i < 64 ==> wire[i] < 0x10000
    requires forall k :: 0 <= k < |idx| ==> idx[k] < 64
    ensures var words := seq(|idx|, k requires 0 <= k < |idx| => wire[idx[k]]);
            && |Bytes(words)| == 2 * |idx| && AllKnown(wire, block, Bytes(words), |idx|)
            && forall k :: 0 <= k < |idx| ==> IndexOf(wire, block, Word(Bytes(words), k)) == Some(idx[k])
  {
    var words := seq(|idx|, k requires 0 <= k < |idx| => wire[idx[k]]);
    BytesRead(words);
    TableInverts(wire, block);
    forall k | 0 <= k < |idx| ensures IndexOf(wire, block, Word(Bytes(words), k)) == Some(idx[k]) {
      assert IndexOf(wire, block, WordOf(wire, block, idx[k])) == Some(idx[k]);
    }
    hide IndexOf, Word, Bytes;
  }
}
