/** The content-reuse workload of benchmarks/multimodal_cache_workload.py: which requests repeat their
    media, and the binary marker that makes the media of all others distinct. */
module CacheWorkload {
  import opened Paging

  // ----- exact, evenly spread repeats

  /** Whether the media request with this index is a repeat. */
  predicate Repeated(index: nat, repeats: nat, total: nat)
    requires total > 0
  {
    (index + 1) * repeats / total > index * repeats / total
  }

  function Repeats(first: nat, count: nat, repeats: nat, total: nat): nat
    requires total > 0
  {
    if count == 0 then 0
    else Repeats(first, count - 1, repeats, total) + (if Repeated(first + count - 1, repeats, total) then 1 else 0)
  }

  /** The first requests of any number contain exactly the floor of their share of repeats. */
  lemma {:induction false} RepeatsOfPrefix(count: nat, repeats: nat, total: nat)
    requires repeats <= total && total > 0
    ensures Repeats(0, count, repeats, total) == count * repeats / total
  {
    if count > 0 {
      RepeatsOfPrefix(count - 1, repeats, total);
      RepeatStep(count - 1, repeats, total);
    }
  }

  lemma RepeatStep(index: nat, repeats: nat, total: nat)
    requires repeats <= total && total > 0
    ensures (index + 1) * repeats / total == index * repeats / total
            + (if Repeated(index, repeats, total) then 1 else 0)
  {
    var a := index * repeats;
    assert (index + 1) * repeats == a + repeats;
    QuotientOfSum(a, repeats, total);
    QuotientIs(repeats, total, if repeats == total then 1 else 0);
  }

  /** All of them together contain exactly the requested number. */
  lemma RepeatsInAll(repeats: nat, total: nat)
    requires repeats <= total && total > 0
    ensures Repeats(0, total, repeats, total) == repeats
  {
    RepeatsOfPrefix(total, repeats, total);
    StartIsProduct(repeats, total);
    QuotientIs(total * repeats, total, repeats);
  }

  lemma {:induction false} RepeatsSplit(first: nat, count: nat, repeats: nat, total: nat)
    requires total > 0
    ensures Repeats(0, first + count, repeats, total) == Repeats(0, first, repeats, total)
            + Repeats(first, count, repeats, total)
  {
    if count > 0 { RepeatsSplit(first, count - 1, repeats, total); }
  }

  /** How far a floor moves when b is added. */
  lemma Share(a: nat, b: nat, n: nat)
    requires n > 0
    ensures b / n <= (a + b) / n - a / n <= (b + n - 1) / n
  {
    QuotientOfSum(a, b, n);
    QuotientOfSum(b, n - 1, n);
    QuotientIs(n - 1, n, 0);
  }

  /** Every window of consecutive media requests holds the floor or the ceiling of its share. */
  lemma RepeatsOfWindow(first: nat, count: nat, repeats: nat, total: nat)
    requires repeats <= total && total > 0
    ensures count * repeats / total <= Repeats(first, count, repeats, total) <= (count * repeats + total - 1) / total
  {
    RepeatsSplit(first, count, repeats, total);
    RepeatsOfPrefix(first + count, repeats, total);
    RepeatsOfPrefix(first, repeats, total);
    assert (first + count) * repeats == first * repeats + count * repeats;
    Share(first * repeats, count * repeats, total);
  }

  // ----- the builder

  datatype Role = TextOnly | Repeat | Unique(variant: nat)

  /** Media requests among the first n payloads. */
  function MediaBefore(media: seq<bool>, n: nat): (c: nat)
    requires n <= |media|
    ensures c <= n
  {
    if n == 0 then 0 else MediaBefore(media, n - 1) + (if media[n - 1] then 1 else 0)
  }

  function RoleOf(media: seq<bool>, i: nat, repeats: nat): Role
    requires i < |media| && (media[i] ==> MediaBefore(media, |media|) > 0)
  {
    if !media[i] then TextOnly
    else if Repeated(MediaBefore(media, i), repeats, MediaBefore(media, |media|)) then Repeat
    else Unique(MediaBefore(media, i) + 1)
  }

  lemma {:induction false} MediaGrows(media: seq<bool>, i: nat, n: nat)
    requires i <= n <= |media|
    ensures MediaBefore(media, i) <= MediaBefore(media, n)
    decreases n
  {
    if i < n { MediaGrows(media, i, n - 1); }
  }

  /** One pass over the payloads; text-only requests do not advance the media index. */
  method BuildWorkload(media: seq<bool>, repeats: nat) returns (roles: seq<Role>)
    requires repeats <= MediaBefore(media, |media|)
    ensures |roles| == |media|
    ensures forall i :: 0 <= i < |media| ==>
              (media[i] ==> MediaBefore(media, |media|) > 0) && roles[i] == RoleOf(media, i, repeats)
  {
    var total := MediaBefore(media, |media|);
    var mediaIndex := 0;
    roles := [];
    while |roles| < |media|
      invariant |roles| <= |media| && mediaIndex == MediaBefore(media, |roles|)
      invariant forall i :: 0 <= i < |roles| ==> (media[i] ==> total > 0) && roles[i] == RoleOf(media, i, repeats)
    {
      var p := |roles|;
      if !media[p] {
        roles := roles + [TextOnly];
      } else {
        MediaGrows(media, p + 1, |media|);
        roles := roles + [if Repeated(mediaIndex, repeats, total) then Repeat else Unique(mediaIndex + 1)];
        mediaIndex := mediaIndex + 1;
      }
    }
  }

  function RepeatRoles(roles: seq<Role>): nat {
    if roles == [] then 0 else RepeatRoles(roles[..|roles| - 1]) + (if roles[|roles| - 1] == Repeat then 1 else 0)
  }

  /** Among the first n payloads of a built workload, the number of repeats is the exact share of the
      media requests among them. */
  lemma {:induction false} RepeatsBuilt(media: seq<bool>, repeats: nat, roles: seq<Role>, n: nat)
    requires n <= |roles| == |media| && repeats <= MediaBefore(media, |media|) && MediaBefore(media, |media|) > 0
    requires forall i :: 0 <= i < |media| ==> roles[i] == RoleOf(media, i, repeats)
    ensures RepeatRoles(roles[..n]) == MediaBefore(media, n) * repeats / MediaBefore(media, |media|)
  {
    var total := MediaBefore(media, |media|);
    if n > 0 {
      RepeatsBuilt(media, repeats, roles, n - 1);
      assert roles[..n][..n - 1] == roles[..n - 1];
      RepeatStep(MediaBefore(media, n - 1), repeats, total);
    } else {
      QuotientIs(0, total, 0);
    }
  }

  /** Two different unique requests never get the same variant. */
  lemma VariantsDiffer(media: seq<bool>, repeats: nat, i: nat, j: nat)
    requires i < j < |media| && MediaBefore(media, |media|) > 0
    requires RoleOf(media, i, repeats).Unique? && RoleOf(media, j, repeats).Unique?
    ensures RoleOf(media, i, repeats) != RoleOf(media, j, repeats)
  {
    MediaGrows(media, i + 1, j);
  }
}
