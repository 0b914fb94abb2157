/** The pluggable policies the list builder consults — filters, promoters, a
 *  sections provider and comparators — instantiated by the four small policies
 *  the builder's tests register, together with the first-wins chains the
 *  builder runs them in and the two orders it sorts by. */
module Pluggables {
  import opened Entries
  import opened Sorting

  const PACKAGE_1: string := "com.test1"
  const PACKAGE_2: string := "com.test2"
  const PACKAGE_3: string := "org.test3"
  const PACKAGE_4: string := "com.test4"
  const PACKAGE_5: string := "com.test5"

  /** Excludes the entries of one package while it is enabled. */
  datatype NotifFilter = PackageFilter(pkg: string, enabled: bool)

  function ShouldFilterOut(f: NotifFilter, e: Leaf, now: int): bool
  {
    f.enabled && e.pkg == f.pkg
  }

  /** Promotes group children whose id is listed. */
  datatype NotifPromoter = IdPromoter(ids: seq<int>)

  function ShouldPromoteToTopLevel(p: NotifPromoter, child: Leaf): bool
  {
    child.id in p.ids
  }

  /** Sorts entries of the preferred packages above all others. */
  datatype NotifComparator = HypeComparator(preferred: seq<string>)

  /** Java's Boolean.compare: false orders before true. */
  function BooleanCompare(x: bool, y: bool): int
  {
    if x == y then 0 else if x then 1 else -1
  }

  /** Java's Integer.compare and Long.compare. */
  function IntCompare(x: int, y: int): int
  {
    if x < y then -1 else if x == y then 0 else 1
  }

  function Compare(c: NotifComparator, a: Leaf, b: Leaf): (r: int)
    ensures r < 0 <==> a.pkg in c.preferred && b.pkg !in c.preferred
    ensures r > 0 <==> b.pkg in c.preferred && a.pkg !in c.preferred
  {
    BooleanCompare(b.pkg in c.preferred, a.pkg in c.preferred)
  }

  /** The builder's default provider puts every entry in one section; the
   *  package sectioner maps the first three test packages to 1, 2, 3. */
  datatype SectionsProvider = DefaultSections | PackageSectioner

  function GetSection(sp: SectionsProvider, e: Leaf): int
  {
    match sp
    case DefaultSections => 0
    case PackageSectioner =>
      if e.pkg == PACKAGE_1 then 1
      else if e.pkg == PACKAGE_2 then 2
      else if e.pkg == PACKAGE_3 then 3
      else 4
  }

  /** The filter chain: the first filter, in registration order, that wants the
   *  entry out decides; the filters after it are not asked. */
  function FirstRejecting(fs: seq<NotifFilter>, e: Leaf, now: int): (r: Option<nat>)
    ensures r.Some? ==> r.value < |fs| && ShouldFilterOut(fs[r.value], e, now)
    ensures forall j :: 0 <= j < |fs| && (r.None? || j < r.value) ==> !ShouldFilterOut(fs[j], e, now)
    decreases |fs|
  {
    if |fs| == 0 then None
    else if ShouldFilterOut(fs[0], e, now) then Some(0)
    else
      match FirstRejecting(fs[1..], e, now)
      case None => None
      case Some(i) => Some(i + 1)
  }

  /** The promoter chain, first-wins like the filter chain. */
  function FirstPromoter(ps: seq<NotifPromoter>, child: Leaf): (r: Option<nat>)
    ensures r.Some? ==> r.value < |ps| && ShouldPromoteToTopLevel(ps[r.value], child)
    ensures forall j :: 0 <= j < |ps| && (r.None? || j < r.value) ==> !ShouldPromoteToTopLevel(ps[j], child)
    decreases |ps|
  {
    if |ps| == 0 then None
    else if ShouldPromoteToTopLevel(ps[0], child) then Some(0)
    else
      match FirstPromoter(ps[1..], child)
      case None => None
      case Some(i) => Some(i + 1)
  }

  /** The comparator chain: the first comparator that tells the two apart decides. */
  function ChainCompare(cs: seq<NotifComparator>, a: Leaf, b: Leaf): (r: int)
    ensures r != 0 ==> exists j :: 0 <= j < |cs| && r == Compare(cs[j], a, b)
                                   && forall k :: 0 <= k < j ==> Compare(cs[k], a, b) == 0
    ensures r == 0 <==> forall j :: 0 <= j < |cs| ==> Compare(cs[j], a, b) == 0
    decreases |cs|
  {
    if |cs| == 0 then 0
    else
      var c := Compare(cs[0], a, b);
      if c != 0 then c
      else
        var r := ChainCompare(cs[1..], a, b);
        assert r != 0 ==> exists j :: 0 <= j < |cs| && r == Compare(cs[j], a, b)
                                      && forall k :: 0 <= k < j ==> Compare(cs[k], a, b) == 0 by {
          if r != 0 {
            var j :| 0 <= j < |cs[1..]| && r == Compare(cs[1..][j], a, b)
                     && forall k :: 0 <= k < j ==> Compare(cs[1..][k], a, b) == 0;
            assert forall k :: 0 <= k < j + 1 ==> Compare(cs[k], a, b) == 0 by {
              forall k | 0 <= k < j + 1 ensures Compare(cs[k], a, b) == 0 {
                if k > 0 { assert cs[k] == cs[1..][k - 1]; }
              }
            }
          }
        }
        r
  }

  lemma {:induction false} ChainAntisymmetric(cs: seq<NotifComparator>, a: Leaf, b: Leaf)
    ensures ChainCompare(cs, b, a) == -ChainCompare(cs, a, b)
    decreases |cs|
  {
    if |cs| > 0 {
      ChainAntisymmetric(cs[1..], a, b);
    }
  }

  lemma {:induction false} ChainTransitive(cs: seq<NotifComparator>, a: Leaf, b: Leaf, c: Leaf)
    ensures ChainCompare(cs, a, b) <= 0 && ChainCompare(cs, b, c) <= 0 ==> ChainCompare(cs, a, c) <= 0
    ensures ChainCompare(cs, a, b) == 0 && ChainCompare(cs, b, c) == 0 ==> ChainCompare(cs, a, c) == 0
    decreases |cs|
  {
    if |cs| > 0 {
      ChainTransitive(cs[1..], a, b, c);
    }
  }

  /** A top-level entry with the two things the sort reads: the entry that
   *  represents it (itself, or a group's summary) and its section. */
  datatype Keyed = Keyed(entry: TopEntry, rep: Leaf, section: int)

  /** The order of top-level entries: section, then the comparator chain, then
   *  rank ascending, then `when` descending. */
  function TopCompare(cs: seq<NotifComparator>, a: Keyed, b: Keyed): int
  {
    var bySection := IntCompare(a.section, b.section);
    if bySection != 0 then bySection
    else
      var byChain := ChainCompare(cs, a.rep, b.rep);
      if byChain != 0 then byChain
      else ChildCompare(a.rep, b.rep)
  }

  /** The order of a group's children: rank ascending, then `when` descending. */
  function ChildCompare(a: Leaf, b: Leaf): int
  {
    var byRank := a.rank - b.rank;
    if byRank != 0 then byRank else IntCompare(b.when, a.when)
  }

  function TopLe(cs: seq<NotifComparator>): (Keyed, Keyed) -> bool
  {
    (a: Keyed, b: Keyed) => TopCompare(cs, a, b) <= 0
  }

  function ChildLe(): (Leaf, Leaf) -> bool
  {
    (a: Leaf, b: Leaf) => ChildCompare(a, b) <= 0
  }

  lemma ChildOrderIsTotalPreorder()
    ensures TotalPreorder(ChildLe())
  {
  }

  lemma TopOrderIsTotalPreorder(cs: seq<NotifComparator>)
    ensures TotalPreorder(TopLe(cs))
  {
    var le := TopLe(cs);
    forall a, b ensures le(a, b) || le(b, a) {
      ChainAntisymmetric(cs, a.rep, b.rep);
    }
    forall a, b, c | le(a, b) && le(b, c) ensures le(a, c) {
      ChainAntisymmetric(cs, a.rep, b.rep);
      ChainAntisymmetric(cs, b.rep, c.rep);
      ChainAntisymmetric(cs, a.rep, c.rep);
      ChainTransitive(cs, a.rep, b.rep, c.rep);
      ChainTransitive(cs, b.rep, c.rep, a.rep);
      ChainTransitive(cs, c.rep, a.rep, b.rep);
    }
  }
}
