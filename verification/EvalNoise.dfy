/** Which corpus entry every noise turn repeats. */
module EvalNoise {
  import opened Prelude
  import opened Weaving
  import opened EvalTimeline

  /** The generator gives the reference values of splitmix64 for its first two states from seed 0. */
  lemma ReferenceValues()
    ensures SplitMix64(0) == 0xE220_A839_7B1D_CDAF
    ensures SplitMix64(0x9E37_79B9_7F4A_7C15) == 0x6E78_9E6A_A1B9_65F4
  {
    assert Mixed(0, 1) == 0x6F68_261B_57E7_A770 && Mixed(0, 2) == 0xE220_A838_BF5C_9DDE;
    assert Mixed(0x9E37_79B9_7F4A_7C15, 1) == 0x2A94_FCBF_CCB4_3499 && Mixed(0x9E37_79B9_7F4A_7C15, 2) == 0x6E78_9E6A_7D48_5920;
  }

  /** The state of a draw holds the seed, the entry's index above the lowest 16 bits, and the place in the gap in them. */
  lemma DrawsFromSeven()
    ensures Draw(7, 1, 0) == SplitMix64(0x0000_0000_0001_0007) as nat
    ensures Draw(7, 1, 1) == SplitMix64(0x0000_0000_0001_0006) as nat
    ensures Draw(7, 2, 1) == SplitMix64(0x0000_0000_0002_0006) as nat
  {
    assert Word(1) == 1 && Word(2) == 2 && Word(0) == 0;
  }

  /** Places within the first 2^48 entries and 2^16 noise turns a gap give different generator states. */
  lemma StatesDiffer(seed: bv64, index: bv64, j: bv64, otherIndex: bv64, otherJ: bv64)
    requires index < 0x1_0000_0000_0000 && otherIndex < 0x1_0000_0000_0000 && j < 0x1_0000 && otherJ < 0x1_0000
    ensures seed ^ (index << 16) ^ j == seed ^ (otherIndex << 16) ^ otherJ <==> index == otherIndex && j == otherJ
  {
  }

  /** The draw modulo the size of the corpus, 24 for the built-in one, is where the line stands in it. */
  predicate IsPicked(line: Utterance, corpus: seq<string>, draw: nat) {
    if corpus == [] then line == Chatter(draw % 24) else line == Typed(corpus[draw % |corpus|])
  }

  lemma EntryIsPicked(corpus: seq<string>, draw: nat)
    ensures IsPicked(Entry(corpus, draw), corpus, draw)
  {
  }

  lemma LineIsEntry(noise: NoiseConfig, previous: Turn, index: nat, j: nat)
    ensures NoiseAfter(noise, previous, index)(j).user == Some(Entry(noise.corpus, Draw(noise.seed, index, j)))
  {
  }

  lemma BlockAt(noise: NoiseConfig, timeline: seq<Turn>, i: nat, count: nat, k: nat)
    requires i < |timeline| && k < count
    ensures NoiseBlock(noise, timeline, i, count)[k] == NoiseAfter(noise, timeline[i], i + 1)(k)
  {
    TabulateAt(NoiseAfter(noise, timeline[i], i + 1), count, k);
  }

  /** The k-th noise turn after authored turn `i` says what the draw for entry `i + 1` and place `k` picks. */
  lemma NoiseSays(noise: NoiseConfig, timeline: seq<Turn>, i: nat, count: nat, k: nat)
    requires i < |timeline| && k < count
    ensures var line := NoiseBlock(noise, timeline, i, count)[k].user;
            line.Some? && IsPicked(line.value, noise.corpus, Draw(noise.seed, i + 1, k))
  {
    BlockAt(noise, timeline, i, count, k);
    LineIsEntry(noise, timeline[i], i + 1, k);
    EntryIsPicked(noise.corpus, Draw(noise.seed, i + 1, k));
  }
}
