/** The display strings of frontend/components/modal/OfferDetailsModal.jsx:
    the category name, the status badge class and label, and the donor
    line. Case mapping covers ASCII letters only. */
module OfferDetails {
  import opened Wrappers
  import opened Text
  import opened Schemas

  // ----- the category name -----

  /** The index of the first `-`, or the length when there is none. */
  function FirstDash(s: string): (i: nat)
    ensures i <= |s|
    ensures forall j | 0 <= j < i :: s[j] != '-'
    ensures i < |s| ==> s[i] == '-'
  {
    if s == [] then 0
    else if s[0] == '-' then 0
    else 1 + FirstDash(s[1..])
  }

  /** `s.replace('-', '/')`: a string pattern replaces its first match only. */
  function ReplaceFirstDash(s: string): (r: string)
    ensures |r| == |s|
    ensures '-' !in s ==> r == s
  {
    var i := FirstDash(s);
    if i < |s| then s[..i] + "/" + s[i + 1..] else s
  }

  /** Only the first `-` becomes `/`: every later one stays, and no other
      character changes. */
  lemma ReplaceOnlyFirst(s: string)
    ensures var r := ReplaceFirstDash(s);
      && (forall j | 0 <= j < |s| :: r[j] == '-' <==> s[j] == '-' && j != FirstDash(s))
      && (forall j | 0 <= j < |s| && s[j] != '-' :: r[j] == s[j])
      && ('-' in s ==> r[FirstDash(s)] == '/')
  {
    var r := ReplaceFirstDash(s);
    var i := FirstDash(s);
    if i < |s| {
      forall j | 0 <= j < |s| ensures r[j] == (if j == i then '/' else s[j]) {
        if j < i {
          assert r[j] == s[..i][j];
        } else if j > i {
          assert r[j] == s[i + 1..][j - i - 1];
        }
      }
    }
  }

  /** `\w`: an ASCII letter, digit or underscore. */
  predicate IsWordChar(c: char) {
    'a' <= c <= 'z' || 'A' <= c <= 'Z' || IsDigit(c) || c == '_'
  }

  /** `\b\w`: a word character at the start or after a non-word character. */
  predicate WordStart(s: string, i: nat)
    requires i < |s|
  {
    IsWordChar(s[i]) && (i == 0 || !IsWordChar(s[i - 1]))
  }

  /** `.replace(/\b\w/g, l => l.toUpperCase())`: every word-initial
      character upper-cased, every other character as it was. */
  function CapitalizeWords(s: string): (r: string)
    ensures |r| == |s|
    ensures forall i | 0 <= i < |s| && WordStart(s, i) :: r[i] == UpperChar(s[i]) && !('a' <= r[i] <= 'z')
    ensures forall i | 0 <= i < |s| && !WordStart(s, i) :: r[i] == s[i]
    ensures ToLower(r) == ToLower(s)
  {
    var r := seq(|s|, i requires 0 <= i < |s| => if WordStart(s, i) then UpperChar(s[i]) else s[i]);
    assert forall i | 0 <= i < |s| :: LowerChar(r[i]) == LowerChar(s[i]);
    r
  }

  /** Capitalising twice is capitalising once: upper-casing a letter keeps
      it a word character, so the word starts stay where they were. */
  lemma CapitalizeIdempotent(s: string)
    ensures CapitalizeWords(CapitalizeWords(s)) == CapitalizeWords(s)
  {
    var r := CapitalizeWords(s);
    assert forall i | 0 <= i < |s| :: IsWordChar(r[i]) <==> IsWordChar(s[i]);
    forall i | 0 <= i < |s| ensures WordStart(r, i) <==> WordStart(s, i) {
      if i > 0 {
        assert IsWordChar(r[i - 1]) <==> IsWordChar(s[i - 1]);
      }
    }
  }

  /** `getCategoryDisplayName`. */
  function CategoryDisplayName(category: string): (r: string)
    ensures |r| == |category|
    ensures ToLower(r) == ToLower(ReplaceFirstDash(category))
  {
    CapitalizeWords(ReplaceFirstDash(category))
  }

  /** A word of lower-case ASCII letters, as the category names use. */
  predicate LowerWord(w: string) {
    w != [] && forall i | 0 <= i < |w| :: 'a' <= w[i] <= 'z'
  }

  /** The word with its first letter upper-cased. */
  function Capitalized(w: string): string
    requires w != []
  {
    [UpperChar(w[0])] + w[1..]
  }

  /** Inside a lower-case word only the first letter starts a word. */
  lemma CapitalizeWord(w: string)
    requires LowerWord(w)
    ensures CapitalizeWords(w) == Capitalized(w)
  {
    var r := CapitalizeWords(w);
    forall i | 0 < i < |w| ensures r[i] == w[i] {
      assert !WordStart(w, i);
    }
  }

  /** A one-word category is shown capitalised. */
  lemma OneWordCategory(a: string)
    requires LowerWord(a)
    ensures CategoryDisplayName(a) == Capitalized(a)
  {
    assert '-' !in a by {
      forall i | 0 <= i < |a| ensures a[i] != '-' {
      }
    }
    CapitalizeWord(a);
  }

  /** A two-word category `a-b` is shown as `A/B`, each word capitalised:
      `food-perishables` as `Food/Perishables`, `skills-time` as
      `Skills/Time`. */
  lemma TwoWordCategory(a: string, b: string)
    requires LowerWord(a) && LowerWord(b)
    ensures CategoryDisplayName(a + "-" + b) == Capitalized(a) + "/" + Capitalized(b)
  {
    DashBetweenWords(a, b);
    CapitalizeAround(a, '/', b);
    CapitalizeWord(a);
    CapitalizeWord(b);
  }

  /** The dash between two words is the first one. */
  lemma DashBetweenWords(a: string, b: string)
    requires LowerWord(a) && LowerWord(b)
    ensures ReplaceFirstDash(a + "-" + b) == a + "/" + b
  {
    var s := a + "-" + b;
    assert s[|a|] == '-';
    assert forall j | 0 <= j < |a| :: s[j] == a[j];
    assert FirstDash(s) == |a|;
    assert s[..|a|] == a && s[|a| + 1..] == b;
  }

  /** A character that is not a word character separates words: the text
      on each side is capitalised on its own. */
  lemma CapitalizeAround(x: string, c: char, y: string)
    requires !IsWordChar(c)
    ensures CapitalizeWords(x + [c] + y) == CapitalizeWords(x) + [c] + CapitalizeWords(y)
  {
    var t := x + [c] + y;
    var r := CapitalizeWords(t);
    var cx, cy := CapitalizeWords(x), CapitalizeWords(y);
    var e := cx + [c] + cy;
    forall i | 0 <= i < |t| ensures r[i] == e[i] {
      if i < |x| {
        assert t[i] == x[i] && e[i] == cx[i];
        assert WordStart(t, i) <==> WordStart(x, i) by {
          if i > 0 {
            assert t[i - 1] == x[i - 1];
          }
        }
      } else if i == |x| {
        assert !WordStart(t, i);
      } else {
        var j := i - |x| - 1;
        assert t[i] == y[j] && e[i] == cy[j];
        assert WordStart(t, i) <==> WordStart(y, j) by {
          if j > 0 {
            assert t[i - 1] == y[j - 1];
          }
        }
      }
    }
  }

  /** A second `-` is kept, yet still starts a new word. */
  lemma SecondDashKept()
    ensures CategoryDisplayName("a-b-c") == "A/B-C"
  {
    assert FirstDash("a-b-c") == 1;
    assert ReplaceFirstDash("a-b-c") == "a/b-c";
  }

  // ----- the status -----

  /** `getStatusBadgeClass`: `status-` and the status for an approved or
      rejected offer, `status-pending` for anything else. */
  function StatusBadgeClass(status: string): (r: string)
    ensures r in {"status-approved", "status-rejected", "status-pending"}
    ensures status in OfferStatuses <==> r == "status-" + status
    ensures status !in OfferStatuses ==> r == "status-pending"
  {
    match status
    case "approved" => "status-approved"
    case "rejected" => "status-rejected"
    case _ =>
      assert ("status-" + status)[7..] == status;
      "status-pending"
  }

  /** `status.charAt(0).toUpperCase() + status.slice(1)`. */
  function StatusLabel(status: string): (r: string)
    ensures |r| == |status|
    ensures status != [] ==> r[1..] == status[1..] && !('a' <= r[0] <= 'z')
    ensures ToLower(r) == ToLower(status)
  {
    if status == [] then [] else
      var r := [UpperChar(status[0])] + status[1..];
      assert LowerChar(r[0]) == LowerChar(status[0]);
      assert forall i | 0 <= i < |r| :: LowerChar(r[i]) == LowerChar(status[i]);
      r
  }

  /** A status starting with a lower-case letter is shown with that letter
      upper-cased and the rest as it is: `pending` as `Pending`, `approved`
      as `Approved`, `rejected` as `Rejected`. */
  lemma StatusLabelOf(c: char, w: string)
    requires 'a' <= c <= 'z'
    ensures StatusLabel([c] + w) == [c - 'a' + 'A'] + w
  {
    var s := [c] + w;
    assert s[1..] == w;
  }

  // ----- the donor -----

  /** `isAnonymous ? 'Anonymous' : (donorName || 'N/A')`. */
  function DonorLabel(o: Offer): (r: string)
    ensures r != []
    ensures o.isAnonymous ==> r == "Anonymous"
    ensures !o.isAnonymous && o.donorName.Some? && o.donorName.value != [] ==> r == o.donorName.value
    ensures !o.isAnonymous && (o.donorName.None? || o.donorName.value == []) ==> r == "N/A"
  {
    if o.isAnonymous then "Anonymous"
    else if o.donorName.Some? && o.donorName.value != [] then o.donorName.value
    else "N/A"
  }

  /** An anonymous offer never shows the donor's name, whatever it holds;
      a named offer shows that name. */
  lemma AnonymousHidesName(o: Offer, name: string)
    requires name != [] && name != "Anonymous"
    ensures DonorLabel(o.(isAnonymous := true, donorName := Some(name))) != name
    ensures DonorLabel(o.(isAnonymous := false, donorName := Some(name))) == name
  {
  }
}
