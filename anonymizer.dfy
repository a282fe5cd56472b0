/**
 * Name redaction on the result scoreboard (ikalog/utils/anonymizer.py):
 * which of the eight entries is the local player, which entries the flags
 * select, the name rectangle of each entry, and the copy of the screenshot
 * in which exactly the selected rectangles are pixelated.
 */
module Anonymizer {

  // Layout of the 1280x720 scoreboard, in pixels.
  const EntryLeft: int := 610
  const EntryWidth: int := 610
  const EntryHeight: int := 45
  const NameOffset: int := 809 - EntryLeft
  const NameOffsetMe: int := 770 - EntryLeft
  const NameWidth: int := 180
  const EntryTops: seq<int> := [101, 167, 231, 296, 432, 496, 562, 627]

  /** Number of scoreboard entries; entries are numbered 1..8. */
  const Entries: nat := 8

  /** The entries 1..4 are team 1, the entries 5..8 team 2. */
  function TeamOf(entryId: int): int {
    if entryId < 5 then 1 else 2
  }

  // ---------------------------------------------------------------------
  // Who is "me"

  /** The number of the last entry whose verdict is true, 0 if none.
      `verdicts[k]` is is_entry_me of entry k + 1. */
  function LastMe(verdicts: seq<bool>): (me: nat)
    ensures me <= |verdicts|
    ensures me == 0 <==> forall k :: 0 <= k < |verdicts| ==> !verdicts[k]
    ensures me != 0 ==> verdicts[me - 1] && forall k :: me <= k < |verdicts| ==> !verdicts[k]
  {
    if verdicts == [] then 0
    else if verdicts[|verdicts| - 1] then |verdicts|
    else LastMe(verdicts[..|verdicts| - 1])
  }

  /** The team of the local player, 0 when there is none. */
  function MyTeam(me: nat): int {
    if me == 0 then 0 else TeamOf(me)
  }

  /** The search loop of anonymize: every entry the predicate accepts
      overwrites the previous answer, so the last one wins. */
  method FindMe(verdicts: seq<bool>) returns (me: nat, myteam: int)
    requires |verdicts| == Entries
    ensures me == LastMe(verdicts)
    ensures myteam == MyTeam(me)
    ensures myteam == 0 <==> me == 0
    ensures 1 <= me <= 4 ==> myteam == 1
    ensures 5 <= me <= 8 ==> myteam == 2
  {
    var entryId := 0;
    me := 0;
    myteam := 0;
    while entryId < |EntryTops|
      invariant 0 <= entryId <= Entries
      invariant me == LastMe(verdicts[..entryId])
      invariant myteam == MyTeam(me)
    {
      entryId := entryId + 1;
      assert verdicts[..entryId][..entryId - 1] == verdicts[..entryId - 1];
      if verdicts[entryId - 1] {
        me := entryId;
        myteam := if entryId < 5 then 1 else 2;
      }
    }
    assert verdicts[..entryId] == verdicts;
  }

  // ---------------------------------------------------------------------
  // Which entries are redacted

  /** The keyword flags of anonymize. */
  datatype Flags = Flags(
    winTeam: bool,
    loseTeam: bool,
    myTeam: bool,
    counterTeam: bool,
    me: bool,
    others: bool,
    all: bool)

  const NoFlags: Flags := Flags(false, false, false, false, false, false, false)

  /** The selection formula of anonymize for one entry. */
  predicate IsRedacted(f: Flags, entryId: int, me: nat, myteam: int) {
    var team := TeamOf(entryId);
    f.all
    || (f.winTeam && team == 1)
    || (f.loseTeam && team == 2)
    || (f.myTeam && team == myteam)
    || (f.counterTeam && team != myteam)
    || (f.me && entryId == me)
    || (f.others && entryId != me)
  }

  const AllEntries: set<int> := set id | 1 <= id <= Entries

  /** The entries the flags select. */
  function RedactedEntries(f: Flags, me: nat, myteam: int): (s: set<int>)
    ensures s <= AllEntries
    ensures forall id :: 1 <= id <= Entries ==> (id in s <==> IsRedacted(f, id, me, myteam))
    ensures f.all ==> s == AllEntries
    ensures f == NoFlags ==> s == {}
  {
    set id | 1 <= id <= Entries && IsRedacted(f, id, me, myteam)
  }

  /** Without a local player (myteam 0) the my-team flag selects nothing and
      the counter-team flag selects every entry. */
  lemma WithoutLocalPlayer(f: Flags)
    ensures RedactedEntries(f, 0, 0) == RedactedEntries(f.(myTeam := false), 0, 0)
    ensures f.counterTeam ==> RedactedEntries(f, 0, 0) == AllEntries
  {
    assert forall id :: 1 <= id <= Entries ==>
      (IsRedacted(f, id, 0, 0) <==> IsRedacted(f.(myTeam := false), id, 0, 0));
    if f.counterTeam {
      assert forall id :: 1 <= id <= Entries ==> IsRedacted(f, id, 0, 0);
    }
  }

  /** Each single flag selects what its name says: the win team is entries
      1..4, the lose team 5..8, "me" only the local player, "others"
      everybody else, and my team together with the counter team is everyone. */
  lemma SingleFlags(me: nat)
    requires me <= Entries
    ensures RedactedEntries(NoFlags.(winTeam := true), me, MyTeam(me)) == {1, 2, 3, 4}
    ensures RedactedEntries(NoFlags.(loseTeam := true), me, MyTeam(me)) == {5, 6, 7, 8}
    ensures RedactedEntries(NoFlags.(me := true), me, MyTeam(me)) == (if me == 0 then {} else {me})
    ensures RedactedEntries(NoFlags.(others := true), me, MyTeam(me)) == AllEntries - {me}
    ensures me != 0 ==> me in RedactedEntries(NoFlags.(myTeam := true), me, MyTeam(me))
    ensures RedactedEntries(NoFlags.(myTeam := true), me, MyTeam(me))
          + RedactedEntries(NoFlags.(counterTeam := true), me, MyTeam(me)) == AllEntries
  {
    var myteam := MyTeam(me);
    var win := RedactedEntries(NoFlags.(winTeam := true), me, myteam);
    assert forall id :: id in win <==> 1 <= id <= 4;
    var lose := RedactedEntries(NoFlags.(loseTeam := true), me, myteam);
    assert forall id :: id in lose <==> 5 <= id <= 8;
    var mine := RedactedEntries(NoFlags.(me := true), me, myteam);
    assert forall id :: id in mine <==> me != 0 && id == me;
    var others := RedactedEntries(NoFlags.(others := true), me, myteam);
    assert forall id :: id in others <==> id in AllEntries && id != me;
    var team := RedactedEntries(NoFlags.(myTeam := true), me, myteam);
    var counter := RedactedEntries(NoFlags.(counterTeam := true), me, myteam);
    assert forall id :: id in team + counter <==> id in AllEntries;
  }

  // ---------------------------------------------------------------------
  // Geometry

  /** A rectangle of rows top..bottom-1 and columns left..right-1. */
  datatype Rect = Rect(top: int, bottom: int, left: int, right: int)

  predicate InRect(rc: Rect, y: int, x: int) {
    rc.top <= y < rc.bottom && rc.left <= x < rc.right
  }

  /** The name rectangle of an entry: 45 rows from the entry's top, 180
      columns from x = 809, or from x = 770 for the local player's entry. */
  function NameRect(entryId: int, me: nat): (rc: Rect)
    requires 1 <= entryId <= Entries
    ensures rc.top == EntryTops[entryId - 1] && rc.bottom == rc.top + 45
    ensures rc.left == (if entryId == me then 770 else 809) && rc.right == rc.left + 180
  {
    var nameLeft := if entryId == me then NameOffsetMe else NameOffset;
    Rect(EntryTops[entryId - 1], EntryTops[entryId - 1] + EntryHeight,
         EntryLeft + nameLeft, EntryLeft + nameLeft + NameWidth)
  }

  /** The row bands of two different entries do not meet: consecutive tops
      are at least 64 rows apart, more than the 45-row height. */
  lemma {:induction false} BandsDisjoint(i: int, j: int)
    requires 0 <= i < j < Entries
    ensures EntryTops[i] + EntryHeight < EntryTops[j]
    decreases j - i
  {
    if j > i + 1 {
      BandsDisjoint(i, j - 1);
      BandsDisjoint(j - 1, j);
    }
  }

  /** Two different entries' name rectangles share no pixel. */
  lemma NameRectsDisjoint(i: int, j: int, me: nat, y: int, x: int)
    requires 1 <= i <= Entries && 1 <= j <= Entries && i != j
    ensures !(InRect(NameRect(i, me), y, x) && InRect(NameRect(j, me), y, x))
  {
    if i < j { BandsDisjoint(i - 1, j - 1); } else { BandsDisjoint(j - 1, i - 1); }
  }

  /** Row y lies in the band of entry `id`. */
  predicate InBand(id: int, y: int) {
    1 <= id <= Entries && EntryTops[id - 1] <= y < EntryTops[id - 1] + EntryHeight
  }

  /** The entry whose row band holds row y, 0 if none. */
  function EntryAtRow(y: int): (id: nat)
    ensures id <= Entries
    ensures id != 0 ==> InBand(id, y)
    ensures forall k :: InBand(k, y) ==> id == k
  {
    EntryAtRowFrom(y, 0)
  }

  function EntryAtRowFrom(y: int, k: nat): (id: nat)
    requires k <= Entries
    ensures id == 0 || k < id <= Entries
    ensures id != 0 ==> InBand(id, y)
    ensures forall j :: k < j && InBand(j, y) ==> id == j
    decreases Entries - k
  {
    if k == Entries then 0
    else if InBand(k + 1, y) then
      assert forall j :: k + 1 < j && InBand(j, y) ==> false by {
        forall j | k + 1 < j && InBand(j, y) ensures false {
          BandsDisjoint(k, j - 1);
        }
      }
      k + 1
    else EntryAtRowFrom(y, k + 1)
  }

  // ---------------------------------------------------------------------
  // The redacted copy

  datatype Pixel = Pixel(blue: int, green: int, red: int)

  /** The pixels of `a` inside `rc`, row by row. */
  ghost function Region(a: array2<Pixel>, rc: Rect): (s: seq<seq<Pixel>>)
    reads a
    requires 0 <= rc.top <= rc.bottom <= a.Length0 && 0 <= rc.left <= rc.right <= a.Length1
    ensures |s| == rc.bottom - rc.top
    ensures forall i :: 0 <= i < |s| ==> |s[i]| == rc.right - rc.left
    ensures forall i, j :: 0 <= i < |s| && 0 <= j < rc.right - rc.left ==> s[i][j] == a[rc.top + i, rc.left + j]
  {
    seq(rc.bottom - rc.top, i requires 0 <= i < rc.bottom - rc.top reads a =>
      seq(rc.right - rc.left, j requires 0 <= j < rc.right - rc.left reads a => a[rc.top + i, rc.left + j]))
  }

  /** Two images that agree inside a rectangle have the same region there. */
  lemma RegionsAgree(a: array2<Pixel>, b: array2<Pixel>, rc: Rect)
    requires 0 <= rc.top <= rc.bottom <= a.Length0 && 0 <= rc.left <= rc.right <= a.Length1
    requires a.Length0 == b.Length0 && a.Length1 == b.Length1
    requires forall y, x :: InRect(rc, y, x) ==> a[y, x] == b[y, x]
    ensures Region(a, rc) == Region(b, rc)
  {
    var ra, rb := Region(a, rc), Region(b, rc);
    forall i | 0 <= i < |ra| ensures ra[i] == rb[i] {
      forall j | 0 <= j < |ra[i]| ensures ra[i][j] == rb[i][j] {
        assert InRect(rc, rc.top + i, rc.left + j);
      }
    }
  }

  /** The pixelation of anonymize (shrink the region, then blow it back up
      with nearest-neighbour sampling), left abstract: the new pixel at an
      offset of a region, as a function of the region's old pixels. */
  type Mosaic = (seq<seq<Pixel>>, int, int) -> Pixel

  /** The pixel of the redacted copy at (y, x) once the first `done`
      entries have been handled: pixelated if an entry among them is
      selected and its name rectangle holds (y, x), else the input's. */
  ghost function PixelAfter(img: array2<Pixel>, f: Flags, me: nat, myteam: int, mosaic: Mosaic, done: nat, y: int, x: int): Pixel
    reads img
    requires 0 <= y < img.Length0 && 0 <= x < img.Length1
    requires EntryTops[Entries - 1] + EntryHeight <= img.Length0 && 809 + NameWidth <= img.Length1
  {
    var id := EntryAtRow(y);
    if 1 <= id <= done && IsRedacted(f, id, me, myteam) && InRect(NameRect(id, me), y, x) then
      var rc := NameRect(id, me);
      mosaic(Region(img, rc), y - rc.top, x - rc.left)
    else img[y, x]
  }

  /** anonymize: a new image, the input untouched; a pixel inside the name
      rectangle of a selected entry is the pixelation of that rectangle of
      the input, every other pixel is the input's. `verdicts` holds
      is_entry_me for the eight entries. */
  method Anonymize(img: array2<Pixel>, verdicts: seq<bool>, f: Flags, mosaic: Mosaic) returns (out: array2<Pixel>)
    requires |verdicts| == Entries
    requires EntryTops[Entries - 1] + EntryHeight <= img.Length0 && 809 + NameWidth <= img.Length1
    ensures fresh(out) && out.Length0 == img.Length0 && out.Length1 == img.Length1
    ensures forall y, x :: 0 <= y < img.Length0 && 0 <= x < img.Length1 ==>
      out[y, x] == PixelAfter(img, f, LastMe(verdicts), MyTeam(LastMe(verdicts)), mosaic, Entries, y, x)
  {
    var me, myteam := FindMe(verdicts);
    out := new Pixel[img.Length0, img.Length1]((y, x) requires 0 <= y < img.Length0 && 0 <= x < img.Length1 reads img => img[y, x]);
    var entryId := 0;
    while entryId < |EntryTops|
      invariant 0 <= entryId <= Entries
      invariant forall y, x :: 0 <= y < img.Length0 && 0 <= x < img.Length1 ==>
        out[y, x] == PixelAfter(img, f, me, myteam, mosaic, entryId, y, x)
    {
      entryId := entryId + 1;
      var team := if entryId < 5 then 1 else 2;
      var anon := f.all
        || (f.winTeam && team == 1)
        || (f.loseTeam && team == 2)
        || (f.myTeam && team == myteam)
        || (f.counterTeam && team != myteam)
        || (f.me && entryId == me)
        || (f.others && entryId != me);
      assert anon == IsRedacted(f, entryId, me, myteam);
      RedactEntry(out, img, f, me, myteam, mosaic, entryId, anon);
    }
  }

  /** One turn of the redaction loop: pixelate the name rectangle of entry
      `entryId` when it is selected, reading its pixels from the copy. */
  method RedactEntry(out: array2<Pixel>, img: array2<Pixel>, f: Flags, me: nat, myteam: int, mosaic: Mosaic, entryId: int, anon: bool)
    requires 1 <= entryId <= Entries && anon == IsRedacted(f, entryId, me, myteam)
    requires out != img && out.Length0 == img.Length0 && out.Length1 == img.Length1
    requires EntryTops[Entries - 1] + EntryHeight <= img.Length0 && 809 + NameWidth <= img.Length1
    requires forall y, x :: 0 <= y < img.Length0 && 0 <= x < img.Length1 ==>
      out[y, x] == PixelAfter(img, f, me, myteam, mosaic, entryId - 1, y, x)
    modifies out
    ensures forall y, x :: 0 <= y < img.Length0 && 0 <= x < img.Length1 ==>
      out[y, x] == PixelAfter(img, f, me, myteam, mosaic, entryId, y, x)
  {
    if anon {
      var rc := NameRect(entryId, me);
      forall y, x | InRect(rc, y, x) ensures out[y, x] == img[y, x] {
        assert InBand(entryId, y);
      }
      RegionsAgree(out, img, rc);
      WriteRegion(out, rc, mosaic);
      forall y, x | 0 <= y < img.Length0 && 0 <= x < img.Length1
        ensures out[y, x] == PixelAfter(img, f, me, myteam, mosaic, entryId, y, x)
      {
        if InRect(rc, y, x) {
          assert InBand(entryId, y);
        }
      }
    }
  }

  /** Overwrite one rectangle of `a` with the pixelation of its own old
      contents; nothing outside the rectangle changes. */
  method WriteRegion(a: array2<Pixel>, rc: Rect, mosaic: Mosaic)
    requires 0 <= rc.top <= rc.bottom <= a.Length0 && 0 <= rc.left <= rc.right <= a.Length1
    modifies a
    ensures forall y, x :: 0 <= y < a.Length0 && 0 <= x < a.Length1 ==>
      a[y, x] == if InRect(rc, y, x) then mosaic(old(Region(a, rc)), y - rc.top, x - rc.left) else old(a[y, x])
  {
    ghost var src := Region(a, rc);
    var small := RegionValue(a, rc);
    var y := rc.top;
    while y < rc.bottom
      invariant rc.top <= y <= rc.bottom
      invariant forall r, c :: 0 <= r < a.Length0 && 0 <= c < a.Length1 ==>
        a[r, c] == if rc.top <= r < y && rc.left <= c < rc.right then mosaic(src, r - rc.top, c - rc.left) else old(a[r, c])
    {
      var x := rc.left;
      while x < rc.right
        invariant rc.left <= x <= rc.right
        invariant forall r, c :: 0 <= r < a.Length0 && 0 <= c < a.Length1 ==>
          a[r, c] == if (rc.top <= r < y && rc.left <= c < rc.right) || (r == y && rc.left <= c < x)
                     then mosaic(src, r - rc.top, c - rc.left) else old(a[r, c])
      {
        a[y, x] := mosaic(small, y - rc.top, x - rc.left);
        x := x + 1;
      }
      y := y + 1;
    }
  }

  /** The region of `a` inside `rc`, read out before it is overwritten. */
  method RegionValue(a: array2<Pixel>, rc: Rect) returns (s: seq<seq<Pixel>>)
    requires 0 <= rc.top <= rc.bottom <= a.Length0 && 0 <= rc.left <= rc.right <= a.Length1
    ensures s == Region(a, rc)
  {
    s := [];
    var y := rc.top;
    while y < rc.bottom
      invariant rc.top <= y <= rc.bottom
      invariant |s| == y - rc.top
      invariant forall i :: 0 <= i < |s| ==> s[i] == Region(a, rc)[i]
    {
      var row := [];
      var x := rc.left;
      while x < rc.right
        invariant rc.left <= x <= rc.right
        invariant |row| == x - rc.left
        invariant forall j :: 0 <= j < |row| ==> row[j] == a[y, rc.left + j]
      {
        row := row + [a[y, x]];
        x := x + 1;
      }
      assert row == Region(a, rc)[y - rc.top];
      s := s + [row];
      y := y + 1;
    }
  }
}
