/**
 * The channel mask of a plan: a sequence of 16-bit words, channel ch being bit
 * ch % 16 of word ch / 16; the words a plan of n channels needs; the single-word
 * write SetChannelMask performs; and the selection of candidate channel
 * indices GetNextChannel collects.
 */
module ChannelMask {
  import opened Bits

  /**
   * SetNumberOfChannels' word count ((channels - 1) / CHAN_MASK_SIZE) + 1 in C
   * arithmetic, where the division truncates toward zero.
   */
  function MaskWords(channels: nat): (n: nat)
    ensures n >= 1
    ensures 16 * n >= channels
    ensures channels >= 1 ==> 16 * (n - 1) < channels
  {
    if channels == 0 then 1 else (channels - 1) / CHAN_MASK_SIZE + 1
  }

  /** std::vector::resize(n, 0): keep the first n words, pad with zero words. */
  function Resized(mask: seq<Word>, n: nat): (r: seq<Word>)
    ensures |r| == n
    ensures forall i :: 0 <= i < n ==> r[i] == if i < |mask| then mask[i] else 0
  {
    if n <= |mask| then mask[..n] else mask + seq(n - |mask|, _ => 0)
  }

  /** SetChannelMask(index, word): replace word index when the mask has one. */
  function SetWord(mask: seq<Word>, index: nat, w: Word): (r: seq<Word>)
    ensures |r| == |mask|
    ensures index < |mask| ==> r[index] == w
    ensures forall i :: 0 <= i < |mask| && i != index ==> r[i] == mask[i]
  {
    if index < |mask| then mask[index := w] else mask
  }

  /** IsChannelEnabled: (mask[ch / 16] & (1 << ch % 16)) == (1 << ch % 16). */
  predicate IsChannelEnabled(mask: seq<Word>, ch: nat)
    requires ch / CHAN_MASK_SIZE < |mask|
  {
    mask[ch / CHAN_MASK_SIZE] & Bit(ch % CHAN_MASK_SIZE) == Bit(ch % CHAN_MASK_SIZE)
  }

  /** A channel is enabled exactly when its bit is set in its word. */
  lemma EnabledIsBit(mask: seq<Word>, ch: nat)
    requires ch / CHAN_MASK_SIZE < |mask|
    ensures IsChannelEnabled(mask, ch) <==> BitSet(mask[ch / 16], ch % 16)
  {
    MaskTestIsBit(mask[ch / 16], ch % 16);
  }

  /** Writing one word changes only the channels of that word. */
  lemma SetWordKeepsOthers(mask: seq<Word>, index: nat, w: Word, ch: nat)
    requires ch / CHAN_MASK_SIZE < |mask| && ch / CHAN_MASK_SIZE != index
    ensures IsChannelEnabled(SetWord(mask, index, w), ch) == IsChannelEnabled(mask, ch)
  {
  }

  /**
   * The indices i in [lo, hi) with ok[i], in increasing order: the
   * enabledChannels array GetNextChannel fills.
   */
  function Selected(ok: seq<bool>, lo: nat, hi: nat): (r: seq<nat>)
    requires hi <= |ok|
    ensures |r| <= if lo <= hi then hi - lo else 0
    decreases hi
  {
    if hi <= lo then [] else Selected(ok, lo, hi - 1) + (if ok[hi - 1] then [hi - 1] else [])
  }

  /** Exactly the indices in range whose flag is set are selected. */
  lemma {:induction false} SelectedMembers(ok: seq<bool>, lo: nat, hi: nat, x: nat)
    requires hi <= |ok|
    ensures x in Selected(ok, lo, hi) <==> lo <= x < hi && ok[x]
    decreases hi
  {
    if lo < hi {
      SelectedMembers(ok, lo, hi - 1, x);
    }
  }

  /** The selection lists the indices in strictly increasing order. */
  lemma {:induction false} SelectedIncreasing(ok: seq<bool>, lo: nat, hi: nat)
    requires hi <= |ok|
    ensures forall a, b :: 0 <= a < b < |Selected(ok, lo, hi)| ==> Selected(ok, lo, hi)[a] < Selected(ok, lo, hi)[b]
    decreases hi
  {
    if lo < hi {
      SelectedIncreasing(ok, lo, hi - 1);
      var s := Selected(ok, lo, hi - 1);
      forall a | 0 <= a < |s| ensures s[a] < hi - 1 {
        SelectedMembers(ok, lo, hi - 1, s[a]);
      }
    }
  }

  /** enabledChannels[nbEnabled] = ch in the search loops: one more entry, the earlier ones kept. */
  method Push(a: array<nat>, n: nat, x: nat)
    requires n < a.Length
    modifies a
    ensures a[..n + 1] == old(a[..n]) + [x]
  {
    a[n] := x;
    assert a[..n + 1] == a[..n] + [x];
  }
}
