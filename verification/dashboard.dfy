/** The helpers of the field official's dashboard: the tourist search, the
    alert-severity and tourist-status badges, the style of a tourist
    cluster on the map, the abbreviated ledger ID, and the choice of the
    section to show. The mock tourist, alert and cluster lists are inputs. */
module OfficialDashboard {

  import opened Strings
  import opened Palette

  datatype Tourist = Tourist(id: string, name: string, blockchainId: string, status: string, location: string)

  /** The search keeps a tourist whose lower-cased name or ID contains the
      lower-cased query. */
  function MatchesQuery(t: Tourist, query: string): (m: bool)
    ensures m <==> ((exists i :: OccursAt(Lower(t.name), Lower(query), i))
                    || (exists i :: OccursAt(Lower(t.id), Lower(query), i)))
    ensures query == [] ==> m
  {
    assert query == [] ==> OccursAt(Lower(t.name), Lower(query), 0);
    Includes(Lower(t.name), Lower(query)) || Includes(Lower(t.id), Lower(query))
  }

  /** `filteredTourists`: the tourists matching the query, in their order. */
  function FilterTourists(tourists: seq<Tourist>, query: string): (kept: seq<Tourist>)
    ensures |kept| <= |tourists|
    ensures forall t :: t in kept <==> t in tourists && MatchesQuery(t, query)
  {
    if tourists == [] then []
    else
      var rest := FilterTourists(tourists[1..], query);
      assert forall t :: t in tourists <==> t == tourists[0] || t in tourists[1..];
      if MatchesQuery(tourists[0], query) then [tourists[0]] + rest else rest
  }

  /** Filtering a joined list filters each part and keeps them in order,
      so the result is an order-preserving selection. */
  lemma {:induction false} FilterConcat(a: seq<Tourist>, b: seq<Tourist>, query: string)
    ensures FilterTourists(a + b, query) == FilterTourists(a, query) + FilterTourists(b, query)
    decreases |a|
  {
    if a == [] {
      assert a + b == b;
    } else {
      assert (a + b)[0] == a[0] && (a + b)[1..] == a[1..] + b;
      var rest := FilterTourists(a[1..] + b, query);
      assert FilterTourists(a + b, query)
          == (if MatchesQuery(a[0], query) then [a[0]] + rest else rest);
      FilterConcat(a[1..], b, query);
    }
  }

  /** The empty query occurs in every name, so it keeps every tourist. */
  lemma {:induction false} EmptyQueryKeepsAll(tourists: seq<Tourist>)
    ensures FilterTourists(tourists, "") == tourists
  {
    if tourists != [] {
      assert OccursAt(Lower(tourists[0].name), Lower(""), 0);
      EmptyQueryKeepsAll(tourists[1..]);
    }
  }

  /** The search ignores ASCII case in the query. */
  lemma QueryCaseInsensitive(t: Tourist, query: string)
    ensures MatchesQuery(t, query) <==> MatchesQuery(t, Upper(query))
  {
    LowerOfUpper(query);
  }

  lemma LowerOfUpper(s: string)
    ensures Lower(Upper(s)) == Lower(s)
  {
    assert forall i :: 0 <= i < |s| ==> Lower(Upper(s))[i] == Lower(s)[i];
  }

  /** The badge of an alert, by severity. */
  function SeverityBadge(severity: string): (v: Variant)
    ensures v == Destructive <==> severity == "high"
    ensures v == Default <==> severity == "medium"
    ensures v == Secondary <==> severity != "high" && severity != "medium"
  {
    if severity == "high" then Destructive
    else if severity == "medium" then Default
    else Secondary
  }

  /** The badge of a tourist in the lookup list, by status. */
  function StatusBadge(status: string): (v: Variant)
    ensures v == Default <==> status == "active"
    ensures v == Destructive <==> status != "active"
  {
    if status == "active" then Default else Destructive
  }

  /** The `Circle` drawn for a tourist cluster. */
  datatype ClusterStyle = ClusterStyle(radius: int, fillColor: Color, color: Color)

  /** The style of a cluster of `count` tourists: red above 200, yellow
      above 150, green otherwise; the same test picks the fill and the
      stroke colour; the radius is twice the count. */
  function ClusterStyleFor(count: int): (s: ClusterStyle)
    ensures s.radius == 2 * count
    ensures s.fillColor == s.color
    ensures s.color == Red <==> count > 200
    ensures s.color == Yellow <==> 150 < count <= 200
    ensures s.color == Green <==> count <= 150
  {
    ClusterStyle(
      count * 2,
      if count > 200 then Red else if count > 150 then Yellow else Green,
      if count > 200 then Red else if count > 150 then Yellow else Green)
  }

  /** A bigger cluster is drawn no smaller, and never in a calmer colour. */
  lemma ClusterStyleMonotone(c1: int, c2: int)
    requires c1 <= c2
    ensures ClusterStyleFor(c1).radius <= ClusterStyleFor(c2).radius
    ensures Severity(ClusterStyleFor(c1).color) <= Severity(ClusterStyleFor(c2).color)
  {
  }

  /** How alarming a cluster colour reads. */
  function Severity(c: Color): nat
  {
    match c
    case Green => 0
    case Blue => 0
    case Yellow => 1
    case Red => 2
  }

  /** `id.slice(0, 10) + "..." + id.slice(-8)`. */
  function AbbreviateId(id: string): (r: string)
    ensures |r| == Min(|id|, 10) + 3 + Min(|id|, 8)
    ensures IsPrefix(r[..Min(|id|, 10)], id)
    ensures r[Min(|id|, 10)..Min(|id|, 10) + 3] == "..."
    ensures r[Min(|id|, 10) + 3..] == id[|id| - Min(|id|, 8)..]
  {
    SliceFront(id, 10) + "..." + SliceBack(id, 8)
  }

  /** An ID of at most 18 characters can be recovered from its
      abbreviation: the two shown parts cover it. */
  lemma ShortIdRecoverable(id: string)
    requires 10 <= |id| <= 18
    ensures var r := AbbreviateId(id);
            id == r[..10] + r[31 - |id|..]
  {
    var r := AbbreviateId(id);
    assert r[..10] == id[..10];
    assert r[13..] == id[|id| - 8..];
    assert r[31 - |id|..] == id[10..];
    assert id == id[..10] + id[10..];
  }

  /** The dashboard's sections. */
  datatype Section = Dashboard | Lookup | Efir

  /** `renderActiveSection`: the named section, and the dashboard for any
      name it does not know. */
  function ActiveSection(name: string): (s: Section)
    ensures s == Lookup <==> name == "lookup"
    ensures s == Efir <==> name == "efir"
    ensures name !in {"lookup", "efir"} ==> s == Dashboard
  {
    match name
    case "dashboard" => Dashboard
    case "lookup" => Lookup
    case "efir" => Efir
    case _ => Dashboard
  }
}
