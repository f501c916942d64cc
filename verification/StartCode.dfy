/** The skipping search for the next byte-aligned 00 00 01 xx. */
module StartCodes {

  datatype Search =
    | Found(at: nat)      // bits before the start code
    | Exhausted(at: nat)  // bits given up for good
  {
    /** Bits consumed by the search, start code included. */
    function Len(): nat { if Found? then at + 32 else at }

    function Shift(k: nat): Search {
      match this
      case Found(at) => Found(at + k)
      case Exhausted(at) => Exhausted(at + k)
    }
  }

  /** A one among bits i to i + 6. */
  predicate Any7(s: seq<bool>, i: nat)
    requires i + 7 <= |s|
  {
    s[i] || s[i + 1] || s[i + 2] || s[i + 3] || s[i + 4] || s[i + 5] || s[i + 6]
  }

  predicate Any8(s: seq<bool>, i: nat)
    requires i + 8 <= |s|
  {
    Any7(s, i) || s[i + 7]
  }

  /** A start code at bit j of s: 23 zeros and a one, then a byte. */
  predicate StartAt(s: seq<bool>, j: nat)
  {
    j + 32 <= |s| && !Any8(s, j) && !Any8(s, j + 8) && !Any7(s, j + 16) && s[j + 23]
  }

  /** How much of a word without a start code is shifted off. */
  function SkipLen(w: seq<bool>): (k: nat)
    requires |w| >= 32
    ensures k in {8, 16, 24, 32}
  {
    if Any7(w, 24) then 32       // & 0xfe
    else if Any8(w, 16) then 24  // & 0xff00
    else if Any8(w, 8) then 16   // & 0xff0000
    else 8
  }

  function Scan(a: seq<bool>): (r: Search)
    ensures r.Found? ==> r.at + 32 <= |a|
    ensures r.Exhausted? ==> r.at <= |a| < r.at + 32
  {
    if |a| < 32 then Exhausted(0)
    else if StartAt(a, 0) then Found(0)
    else Scan(a[SkipLen(a)..]).Shift(SkipLen(a))
  }

  /** The search from an arbitrary bit: the odd bits before the next byte boundary go first. */
  function NextStart(u: seq<bool>): (r: Search)
    ensures r.Len() <= |u|
  {
    Scan(u[|u| % 8..]).Shift(|u| % 8)
  }

  /** No byte shifted off can begin a start code, whatever follows the word. */
  lemma SkippedNoStart(s: seq<bool>, j: nat)
    requires |s| >= 32 && !StartAt(s, 0) && j % 8 == 0 && j < SkipLen(s)
    ensures !StartAt(s, j)
  {
    assert j in {0, 8, 16, 24};
  }

  /** r is the first aligned start code of a, or nothing given up can begin one before more. */
  ghost predicate Exact(a: seq<bool>, more: seq<bool>, r: Search)
  {
    && r.at % 8 == 0
    && (r.Found? ==> StartAt(a, r.at))
    && forall j: nat :: j % 8 == 0 && j < r.at ==> !StartAt(a + more, j)
  }

  lemma ExactShift(a: seq<bool>, more: seq<bool>, k: nat, r: Search)
    requires k <= |a| && k % 8 == 0 && Exact(a[k..], more, r)
    requires forall j: nat :: j % 8 == 0 && j < k ==> !StartAt(a + more, j)
    ensures Exact(a, more, r.Shift(k))
  {
    assert (a + more)[k..] == a[k..] + more;
    forall j: nat | j % 8 == 0 && j < r.at + k
      ensures !StartAt(a + more, j)
    {
      if j >= k { ShiftStart(a + more, k, j); }
    }
    if r.Found? { ShiftStart(a, k, r.at + k); }
  }

  lemma ScanSkips(a: seq<bool>) returns (k: nat)
    requires |a| >= 32 && !StartAt(a, 0)
    ensures k in {8, 16, 24, 32} && Scan(a) == Scan(a[k..]).Shift(k)
    ensures forall more, j: nat :: j % 8 == 0 && j < k ==> !StartAt(a + more, j)
  {
    k := SkipLen(a);
    forall more, j: nat | j % 8 == 0 && j < k
      ensures !StartAt(a + more, j)
    {
      SkippedNoStart(a + more, j);
    }
  }

  /** The search stops at the first aligned start code, and what it gives up could not begin one
      under any continuation in later buffers. */
  lemma {:induction false} ScanExact(a: seq<bool>, more: seq<bool>)
    ensures Exact(a, more, Scan(a))
    decreases |a|
  {
    if |a| >= 32 {
      if !StartAt(a, 0) {
        var k := ScanSkips(a);
        ScanExact(a[k..], more);
        ExactShift(a, more, k, Scan(a[k..]));
      }
    }
  }

  /** An exhausted search taken up again with more bits finds what one search of everything finds. */
  lemma {:induction false} ScanResumes(a: seq<bool>, more: seq<bool>)
    ensures Scan(a + more) ==
            if Scan(a).Found? then Scan(a) else Scan(a[Scan(a).at..] + more).Shift(Scan(a).at)
    decreases |a|
  {
    if |a| < 32 {
      assert a[0..] + more == a + more;
    } else if !StartAt(a, 0) {
      var k := ResumeStep(a, more);
      ScanResumes(a[k..], more);
      if Scan(a).Exhausted? { assert a[k..][Scan(a).at - k..] == a[Scan(a).at..]; }
    }
  }

  lemma ResumeStep(a: seq<bool>, more: seq<bool>) returns (k: nat)
    requires |a| >= 32 && !StartAt(a, 0)
    ensures 0 < k <= |a| && Scan(a) == Scan(a[k..]).Shift(k) && Scan(a + more) == Scan(a[k..] + more).Shift(k)
  {
    k := SkipLen(a);
    assert (a + more)[k..] == a[k..] + more;
  }

  lemma ShiftStart(s: seq<bool>, k: nat, j: nat)
    requires k <= j && k <= |s|
    ensures StartAt(s, j) == StartAt(s[k..], j - k)
  {
  }
}
