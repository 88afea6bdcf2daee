/** What an incoming block means relative to the tip. */
module TipRules {
  import opened Wire

  datatype Tip = Tip(height: int, hash: string)

  datatype TipAction =
    | Extend
    | Gap
    | Stale
    | Fork(rollbackTo: int)
    | ForkBelowFinalized(wouldRollbackTo: int, finalizedHeight: int)
    | ForkTooDeep(wouldRollbackTo: int, depth: nat)

  function Lower(c: char): char {
    if 'A' <= c <= 'Z' then (c as int + 32) as char else c
  }

  /** Drops one `0x` or `0X` prefix and lowers ASCII letters. */
  function Normalize(s: string): string {
    var t := if |s| >= 2 && s[0] == '0' && (s[1] == 'x' || s[1] == 'X') then s[2..] else s;
    seq(|t|, i requires 0 <= i < |t| => Lower(t[i]))
  }

  predicate HashesMatch(a: string, b: string) {
    Normalize(a) == Normalize(b)
  }

  function Depth(tip: Tip, rewoundFrom: Option<int>): nat {
    var from := if rewoundFrom.Some? then rewoundFrom.value else tip.height;
    var depth := from - (tip.height - 1);
    if depth < 0 then 0 else depth
  }

  function Classify(tip: Option<Tip>, height: int, parentHash: string, rewoundFrom: Option<int>,
                    finalityDepth: nat, finalized: Option<int>): TipAction
  {
    if tip.None? then Extend
    else if height <= tip.value.height then Stale
    else if height > tip.value.height + 1 then Gap
    else if HashesMatch(parentHash, tip.value.hash) then Extend
    else
      var rollbackTo := tip.value.height - 1;
      var depth := Depth(tip.value, rewoundFrom);
      if finalized.Some? && rollbackTo < finalized.value then ForkBelowFinalized(rollbackTo, finalized.value)
      else if depth > finalityDepth then ForkTooDeep(rollbackTo, depth)
      else Fork(rollbackTo)
  }

  /**
   * The six answers, each told from the arguments. Both guards apply whenever finality is
   * reported: a fork is obeyed exactly when it goes no lower than the finalized height - if there
   * is one - and takes back no more than `finalityDepth` blocks in this episode.
   */
  lemma ForkIsObeyed(tip: Option<Tip>, height: int, parentHash: string, rewoundFrom: Option<int>,
                     finalityDepth: nat, finalized: Option<int>)
    ensures tip.None? ==> Classify(tip, height, parentHash, rewoundFrom, finalityDepth, finalized) == Extend
    ensures tip.Some? ==>
      var action := Classify(tip, height, parentHash, rewoundFrom, finalityDepth, finalized);
      var t := tip.value.height;
      var taken := (if rewoundFrom.Some? then rewoundFrom.value else t) - (t - 1);
      var forks := height == t + 1 && !HashesMatch(parentHash, tip.value.hash);
      var certified := finalized.Some? && finalized.value > t - 1;
      && (action.Stale? <==> height <= t)
      && (action.Gap? <==> height > t + 1)
      && (action.Extend? <==> height == t + 1 && HashesMatch(parentHash, tip.value.hash))
      && (forks && certified <==> action == ForkBelowFinalized(t - 1, if finalized.Some? then finalized.value else 0))
      && (forks && !certified && taken > finalityDepth <==> action == ForkTooDeep(t - 1, if taken < 0 then 0 else taken))
      && (forks && !certified && taken <= finalityDepth <==> action == Fork(t - 1))
  {}

  lemma ForkAboveFinality(tip: Option<Tip>, height: int, parentHash: string, rewoundFrom: Option<int>,
                          finalityDepth: nat, finalized: Option<int>)
    ensures var action := Classify(tip, height, parentHash, rewoundFrom, finalityDepth, finalized);
      action.Fork? && finalized.Some? ==> finalized.value <= action.rollbackTo
  {}

  /** A hash as text without the prefix. */
  predicate Unprefixed(h: string) {
    !(|h| >= 2 && h[0] == '0' && (h[1] == 'x' || h[1] == 'X'))
  }

  function Upper(c: char): char {
    if 'a' <= c <= 'z' then (c as int - 32) as char else c
  }

  function InUpper(h: string): string {
    seq(|h|, i requires 0 <= i < |h| => Upper(h[i]))
  }

  /** Letter case and one `0x` prefix do not tell two hashes apart. */
  lemma SpellingDoesNotMatter(h: string)
    requires Unprefixed(h)
    ensures HashesMatch("0x" + h, h) && HashesMatch("0X" + h, h) && HashesMatch(InUpper(h), h)
  {
    assert ("0x" + h)[2..] == h && ("0X" + h)[2..] == h;
    assert Unprefixed(InUpper(h));
    assert forall i :: 0 <= i < |h| ==> Lower(Upper(h[i])) == Lower(h[i]);
    assert Normalize(InUpper(h)) == Normalize(h);
  }

  lemma SelfMatches(h: string)
    ensures HashesMatch(h, h)
  {}

  /** One letter, or the capital and small form of one letter of the alphabet. */
  predicate SameLetter(a: char, b: char) {
    a == b
    || ('A' <= a <= 'Z' && b as int == a as int + 32)
    || ('A' <= b <= 'Z' && a as int == b as int + 32)
  }

  lemma LowerIsSameLetter(a: char, b: char)
    ensures Lower(a) == Lower(b) <==> SameLetter(a, b)
  {}

  /** And nothing else is forgiven: unprefixed hashes match exactly when they agree letter by letter up to case. */
  lemma OnlySpellingIsForgiven(a: string, b: string)
    requires Unprefixed(a) && Unprefixed(b)
    ensures HashesMatch(a, b) <==> |a| == |b| && forall i :: 0 <= i < |a| ==> SameLetter(a[i], b[i])
  {
    hide Lower, SameLetter;
    forall i | 0 <= i < |a| && i < |b| ensures Normalize(a)[i] == Normalize(b)[i] <==> SameLetter(a[i], b[i]) {
      LowerIsSameLetter(a[i], b[i]);
    }
    if |a| == |b| && forall i :: 0 <= i < |a| ==> SameLetter(a[i], b[i]) {
      assert Normalize(a) == Normalize(b);
    }
  }

  /** One prefix is dropped and no more: what follows it is compared letter by letter, whatever it is. */
  lemma OnePrefixIsDropped(prefix: string, a: string, b: string)
    requires (prefix == "0x" || prefix == "0X") && Unprefixed(b)
    ensures HashesMatch(prefix + a, b) <==> |a| == |b| && forall i :: 0 <= i < |a| ==> SameLetter(a[i], b[i])
    ensures HashesMatch(b, prefix + a) <==> HashesMatch(prefix + a, b)
  {
    hide Lower, SameLetter;
    assert (prefix + a)[2..] == a;
    forall i | 0 <= i < |a| && i < |b| ensures Normalize(prefix + a)[i] == Normalize(b)[i] <==> SameLetter(a[i], b[i]) {
      LowerIsSameLetter(a[i], b[i]);
    }
    if |a| == |b| && forall i :: 0 <= i < |a| ==> SameLetter(a[i], b[i]) {
      assert Normalize(prefix + a) == Normalize(b);
    }
  }
}
