/**
 * The routing label `org.01-edu.https` and its effect on the route map:
 * a comma-separated list of `domain:port` entries. When the container is
 * up, each valid entry routes `domain` to `container:port`; when it is
 * down, each valid entry removes `domain`. This module holds the value-level
 * meaning of `parseEntries`; the in-place version is
 * `Sync.Synchroniser.ParseEntries`.
 */
module Labels {
  import opened Wrappers
  import opened GoStrings

  /** Route map: domain name to upstream `container:port`. */
  type Routes = map<string, string>

  datatype Entry = Entry(domain: string, port: string)

  /** The upstream address a domain is routed to. */
  function Upstream(container: string, port: string): string {
    container + ":" + port
  }

  /** One label entry; it is valid only when its `:`-split has exactly two pieces. */
  function ParseEntry(entry: string): (r: Option<Entry>)
    ensures r.Some? <==> Count(entry, ':') == 1
    ensures r.Some? ==> entry == r.value.domain + ":" + r.value.port
    ensures r.Some? ==> ':' !in r.value.domain && ':' !in r.value.port
  {
    var parts := Split(entry, ':');
    JoinSplit(entry, ':');
    if |parts| != 2 then None
    else
      assert Join(parts, ':') == parts[0] + ":" + Join(parts[1..], ':');
      Some(Entry(parts[0], parts[1]))
  }

  /** The text of an entry, `domain:port`. */
  function FormatEntry(e: Entry): string {
    e.domain + ":" + e.port
  }

  /** An entry written from a domain and port without colons parses back to them. */
  lemma ParseFormatEntry(e: Entry)
    requires ':' !in e.domain && ':' !in e.port
    ensures ParseEntry(FormatEntry(e)) == Some(e)
  {
    var parts := [e.domain, e.port];
    SplitJoin(parts, ':');
    assert Join(parts[1..], ':') == e.port;
    assert Join(parts, ':') == FormatEntry(e);
  }

  /**
   * The entries of a label: `strings.Split(https, ",")`, comma-free pieces
   * that join back into the label.
   */
  function Entries(https: string): seq<string> {
    Split(https, ',')
  }

  /** What parseEntries does with one entry. */
  function Step(m: Routes, container: string, entry: string, up: bool): Routes {
    match ParseEntry(entry)
    case None => m
    case Some(e) => if up then m[e.domain := Upstream(container, e.port)] else m - {e.domain}
  }

  /**
   * One entry changes at most its own domain: an invalid entry changes
   * nothing; a valid one routes its domain to `container:port` when up and
   * removes it when down; every other domain keeps its route.
   */
  lemma StepEffect(m: Routes, container: string, entry: string, up: bool, k: string)
    ensures ParseEntry(entry).None? ==> Step(m, container, entry, up) == m
    ensures ParseEntry(entry).Some? ==>
      var e := ParseEntry(entry).value;
      var r := Step(m, container, entry, up);
      && (e.domain in r <==> up)
      && (up ==> r[e.domain] == Upstream(container, e.port))
      && (k != e.domain ==> (k in r <==> k in m) && (k in r ==> r[k] == m[k]))
  {
  }

  /** The route map after parseEntries has processed `entries` in order. */
  function ApplyEntries(m: Routes, container: string, entries: seq<string>, up: bool): Routes
    decreases |entries|
  {
    if entries == [] then m
    else
      var n := |entries| - 1;
      Step(ApplyEntries(m, container, entries[..n], up), container, entries[n], up)
  }

  /** The domains named by the valid entries among `entries`. */
  function Domains(entries: seq<string>): set<string>
    decreases |entries|
  {
    if entries == [] then {}
    else
      var n := |entries| - 1;
      Domains(entries[..n]) + match ParseEntry(entries[n]) case None => {} case Some(e) => {e.domain}
  }

  lemma {:induction false} InDomains(entries: seq<string>, d: string)
    ensures d in Domains(entries) <==>
      exists i :: 0 <= i < |entries| && ParseEntry(entries[i]).Some? && ParseEntry(entries[i]).value.domain == d
    decreases |entries|
  {
    if entries != [] {
      var n := |entries| - 1;
      InDomains(entries[..n], d);
      if d in Domains(entries[..n]) {
        var i :| 0 <= i < n && ParseEntry(entries[..n][i]).Some? && ParseEntry(entries[..n][i]).value.domain == d;
        assert entries[i] == entries[..n][i];
      }
      if exists i :: 0 <= i < |entries| && ParseEntry(entries[i]).Some? && ParseEntry(entries[i]).value.domain == d {
        var i :| 0 <= i < |entries| && ParseEntry(entries[i]).Some? && ParseEntry(entries[i]).value.domain == d;
        if i < n {
          assert entries[..n][i] == entries[i];
        }
      }
    }
  }

  /**
   * Frame: a domain that no valid entry names keeps exactly its previous
   * route (or stays absent), whether the container is up or down.
   */
  lemma {:induction false} ApplyFrame(m: Routes, container: string, entries: seq<string>, up: bool, k: string)
    requires k !in Domains(entries)
    ensures k in ApplyEntries(m, container, entries, up) <==> k in m
    ensures k in m ==> ApplyEntries(m, container, entries, up)[k] == m[k]
    decreases |entries|
  {
    if entries != [] {
      ApplyFrame(m, container, entries[..|entries| - 1], up, k);
    }
  }

  /** When the container is up, the label adds its domains and keeps every other key. */
  lemma {:induction false} ApplyUpKeys(m: Routes, container: string, entries: seq<string>)
    ensures ApplyEntries(m, container, entries, true).Keys == m.Keys + Domains(entries)
    decreases |entries|
  {
    if entries != [] {
      ApplyUpKeys(m, container, entries[..|entries| - 1]);
    }
  }

  /**
   * When the container is down, the result is the old map without the
   * label's domains: whichever container they pointed to, and with no
   * effect for a domain that was absent.
   */
  lemma {:induction false} ApplyDown(m: Routes, container: string, entries: seq<string>)
    ensures ApplyEntries(m, container, entries, false) == m - Domains(entries)
    decreases |entries|
  {
    if entries != [] {
      var n := |entries| - 1;
      ApplyDown(m, container, entries[..n]);
      match ParseEntry(entries[n])
      case None =>
      case Some(e) =>
        assert m - Domains(entries[..n]) - {e.domain} == m - (Domains(entries[..n]) + {e.domain});
    }
  }

  /**
   * When the container is up, a valid entry that no later valid entry
   * overrides routes its domain to `container:port`: the later entry wins.
   */
  lemma {:induction false} ApplyUpLastWins(m: Routes, container: string, entries: seq<string>, i: nat)
    requires i < |entries| && ParseEntry(entries[i]).Some?
    requires forall j :: i < j < |entries| ==>
      ParseEntry(entries[j]).None? || ParseEntry(entries[j]).value.domain != ParseEntry(entries[i]).value.domain
    ensures var e := ParseEntry(entries[i]).value;
      var r := ApplyEntries(m, container, entries, true);
      e.domain in r && r[e.domain] == Upstream(container, e.port)
    decreases |entries|
  {
    var n := |entries| - 1;
    if i < n {
      ApplyUpLastWins(m, container, entries[..n], i);
      assert entries[..n][i] == entries[i];
    }
  }

  /**
   * A container that comes up and then goes down with the same label
   * leaves the map as it was without the label's domains; in particular
   * none of them is routed any more.
   */
  lemma UpThenDown(m: Routes, c1: string, c2: string, https: string)
    ensures var r := ApplyEntries(ApplyEntries(m, c1, Entries(https), true), c2, Entries(https), false);
      r == m - Domains(Entries(https)) && forall d :: d in Domains(Entries(https)) ==> d !in r
  {
    var es := Entries(https);
    var up := ApplyEntries(m, c1, es, true);
    ApplyDown(up, c2, es);
    ApplyUpKeys(m, c1, es);
    forall k | k in m - Domains(es)
      ensures k in up - Domains(es) && (up - Domains(es))[k] == (m - Domains(es))[k]
    {
      ApplyFrame(m, c1, es, true, k);
    }
    assert up - Domains(es) == m - Domains(es);
  }

  /** An empty label is one invalid entry: nothing changes. */
  lemma EmptyLabel(m: Routes, container: string, up: bool)
    ensures Entries("") == [""] && Domains(Entries("")) == {}
    ensures ApplyEntries(m, container, Entries(""), up) == m
  {
    assert Entries("") == [""];
    assert ParseEntry("").None?;
    assert [""][..0] == [];
  }

  /** The label text for a list of entries: entries joined by commas. */
  function FormatLabel(es: seq<Entry>): string {
    Join(seq(|es|, i requires 0 <= i < |es| => FormatEntry(es[i])), ',')
  }

  predicate WellFormed(e: Entry) {
    ':' !in e.domain && ':' !in e.port && ',' !in e.domain && ',' !in e.port
  }

  /**
   * A label written from well-formed entries splits into exactly those
   * entries, each of them valid.
   */
  lemma ParseFormatLabel(es: seq<Entry>)
    requires |es| > 0
    requires forall i :: 0 <= i < |es| ==> WellFormed(es[i])
    ensures |Entries(FormatLabel(es))| == |es|
    ensures forall i :: 0 <= i < |es| ==> ParseEntry(Entries(FormatLabel(es))[i]) == Some(es[i])
  {
    var texts := seq(|es|, i requires 0 <= i < |es| => FormatEntry(es[i]));
    forall i | 0 <= i < |texts|
      ensures ',' !in texts[i]
    {
      assert texts[i] == es[i].domain + ":" + es[i].port;
    }
    SplitJoin(texts, ',');
    forall i | 0 <= i < |es|
      ensures ParseEntry(texts[i]) == Some(es[i])
    {
      ParseFormatEntry(es[i]);
    }
  }
}
