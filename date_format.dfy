/**
 * utils/dateFormat.ts: `formatTimeAgo` turns a publication date into a
 * Portuguese "time ago" text and capitalises it. The date library's text
 * (`formatDistanceToNowStrict` with the pt-BR locale and a suffix) depends on
 * the wall clock, so it is an input here; what is modelled is the rewrite
 * `text.replace("há", "Há")`, which replaces the FIRST occurrence only.
 */
module DateFormat {
  import opened Wrappers

  /** The lower-case word the locale puts in front of the distance ("há 2 horas"). */
  const Lower: string := "há"
  /** Its capitalised form. */
  const Upper: string := "Há"

  /** `pat` occurs in `s` starting at index `i`. */
  predicate OccursAt(s: string, pat: string, i: int) {
    0 <= i && i + |pat| <= |s| && s[i..i + |pat|] == pat
  }

  /** JavaScript's `s.indexOf(pat, from)`: the first index at or after `from` where `pat` occurs. */
  function IndexOf(s: string, pat: string, from: nat): (r: Option<nat>)
    decreases |s| - from
    ensures r.Some? ==> from <= r.value && OccursAt(s, pat, r.value)
    ensures r.Some? ==> forall k :: from <= k < r.value ==> !OccursAt(s, pat, k)
    ensures r.None? ==> forall k :: from <= k ==> !OccursAt(s, pat, k)
  {
    if from + |pat| > |s| then None
    else if s[from..from + |pat|] == pat then Some(from)
    else IndexOf(s, pat, from + 1)
  }

  /**
   * JavaScript's `s.replace(pat, rep)` with a string pattern: the first
   * occurrence of `pat` becomes `rep`; without an occurrence `s` is returned.
   */
  function ReplaceFirst(s: string, pat: string, rep: string): (r: string)
    ensures IndexOf(s, pat, 0).None? ==> r == s
    ensures |r| == |s| - (if IndexOf(s, pat, 0).Some? then |pat| - |rep| else 0)
    ensures IndexOf(s, pat, 0).Some? ==>
      var i := IndexOf(s, pat, 0).value;
      r[..i] == s[..i] && r[i..i + |rep|] == rep && r[i + |rep|..] == s[i + |pat|..]
  {
    match IndexOf(s, pat, 0)
    case None => s
    case Some(i) => s[..i] + rep + s[i + |pat|..]
  }

  /** `formatTimeAgo(date)`, given the date library's text for that date. */
  function FormatTimeAgo(distanceText: string): (r: string)
    ensures |r| == |distanceText|
  {
    ReplaceFirst(distanceText, Lower, Upper)
  }

  /** A text without "há" comes back unchanged ("2 horas atrás"). */
  lemma NoLowerUnchanged(s: string)
    requires forall k :: !OccursAt(s, Lower, k)
    ensures FormatTimeAgo(s) == s
  {
    assert IndexOf(s, Lower, 0).None?;
  }

  /**
   * When the first "há" is at `i`, exactly that occurrence is capitalised:
   * the text before and after it is untouched, and the "há"s of the result
   * are precisely those of the input other than the one at `i` (so later
   * occurrences survive, as in "Há cerca de há muito tempo").
   */
  lemma {:induction false} OnlyFirstCapitalised(s: string, i: nat)
    requires OccursAt(s, Lower, i)
    requires forall k :: 0 <= k < i ==> !OccursAt(s, Lower, k)
    ensures FormatTimeAgo(s) == s[..i] + Upper + s[i + 2..]
    ensures forall k :: OccursAt(FormatTimeAgo(s), Lower, k) <==> OccursAt(s, Lower, k) && k != i
  {
    var r := FormatTimeAgo(s);
    var j := IndexOf(s, Lower, 0);
    assert j == Some(i);
    assert r == s[..i] + Upper + s[i + 2..];
    assert s[i] == 'h' && s[i + 1] == 'á' by { assert s[i..i + 2] == Lower; }
    assert r[i] == 'H' && r[i + 1] == 'á';
    forall k
      ensures OccursAt(r, Lower, k) <==> OccursAt(s, Lower, k) && k != i
    {
      if 0 <= k && k + 2 <= |s| {
        if k + 2 <= i || i + 2 <= k {
          assert r[k..k + 2] == s[k..k + 2] by {
            assert r[k] == s[k] && r[k + 1] == s[k + 1];
          }
        } else if k == i - 1 {
          assert r[k + 1] == 'H' && s[k + 1] == 'h';
          assert r[k..k + 2][1] == r[k + 1];
          assert s[k..k + 2][1] == s[k + 1];
        } else if k == i + 1 {
          assert r[k] == 'á' && s[k] == 'á';
          assert r[k..k + 2][0] == r[k];
          assert s[k..k + 2][0] == s[k];
        } else {
          assert k == i;
          assert r[k..k + 2][0] == 'H';
        }
      }
    }
  }

  /** A text that begins with "há" comes back beginning with "Há" ("há 2 horas" becomes "Há 2 horas"). */
  lemma LeadingLowerCapitalised(s: string)
    requires OccursAt(s, Lower, 0)
    ensures OccursAt(FormatTimeAgo(s), Upper, 0)
    ensures FormatTimeAgo(s)[2..] == s[2..]
  {
    OnlyFirstCapitalised(s, 0);
  }
}
