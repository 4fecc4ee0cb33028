/** Directory listings (file_index.cpp): building the entry list and cutting it into pages. */
module FileIndex {
  import opened Types

  /** A directory entry as lstat sees it: the line printed for it, or None when lstat fails. */
  type Entry = Option<Bytes>

  /** One page of output and the entries that are still to be listed. */
  datatype Page = Page(lines: seq<Bytes>, rest: seq<Entry>)

  /** What one call of get_dir takes from the list when `room` more lines fit. */
  function TakePage(entries: seq<Entry>, room: nat): Page
    decreases |entries|
  {
    if room == 0 || entries == [] then Page([], entries)
    else match entries[0]
      case None => TakePage(entries[1..], room)
      case Some(line) =>
        var p := TakePage(entries[1..], room - 1);
        Page([line] + p.lines, p.rest)
  }

  /** The unpaged listing: one line per entry that can be examined, in directory order. */
  function Lines(entries: seq<Entry>): seq<Bytes> {
    if entries == [] then []
    else (match entries[0] case None => [] case Some(line) => [line]) + Lines(entries[1..])
  }

  function ListingText(entries: seq<Entry>): Bytes {
    Concat(Lines(entries))
  }

  lemma {:induction false} PageRest(entries: seq<Entry>, room: nat)
    ensures var p := TakePage(entries, room);
      && |p.rest| <= |entries|
      && p.rest == entries[|entries| - |p.rest|..]
      && (room > 0 && entries != [] ==> |p.rest| < |entries|)
    decreases |entries|
  {
    if room > 0 && entries != [] {
      var room' := if entries[0].None? then room else room - 1;
      PageRest(entries[1..], room');
      var k := |TakePage(entries[1..], room').rest|;
      assert entries[1..][|entries| - 1 - k..] == entries[|entries| - k..];
    }
  }

  /** A page loses and repeats nothing, and is full whenever something is left over. */
  lemma {:induction false} PageSplits(entries: seq<Entry>, room: nat)
    ensures var p := TakePage(entries, room);
      && Lines(entries) == p.lines + Lines(p.rest)
      && |p.lines| <= room
      && (p.rest != [] ==> |p.lines| == room)
    decreases |entries|
  {
    if room > 0 && entries != [] {
      var room' := if entries[0].None? then room else room - 1;
      PageSplits(entries[1..], room');
    }
  }

  /** All the pages of a listing, the way the INDEX_LOADING rounds produce them. */
  function Pages(entries: seq<Entry>): seq<seq<Bytes>>
    decreases |entries|
  {
    var p := TakePage(entries, PAGE_LINES);
    PageRest(entries, PAGE_LINES);
    if p.rest == [] then [p.lines] else [p.lines] + Pages(p.rest)
  }

  function Flatten(pages: seq<seq<Bytes>>): seq<Bytes> {
    if pages == [] then [] else pages[0] + Flatten(pages[1..])
  }

  lemma {:induction false} FlattenPages(entries: seq<Entry>)
    ensures Flatten(Pages(entries)) == Lines(entries)
    decreases |entries|
  {
    var p := TakePage(entries, PAGE_LINES);
    PageSplits(entries, PAGE_LINES);
    PageRest(entries, PAGE_LINES);
    if p.rest == [] {
      assert Flatten([p.lines]) == p.lines + Flatten([]);
    } else {
      FlattenPages(p.rest);
      assert ([p.lines] + Pages(p.rest))[1..] == Pages(p.rest);
    }
  }

  lemma {:induction false} PagesAreFull(entries: seq<Entry>, i: nat)
    requires i < |Pages(entries)|
    ensures |Pages(entries)[i]| <= PAGE_LINES
    ensures i < |Pages(entries)| - 1 ==> |Pages(entries)[i]| == PAGE_LINES
    decreases |entries|
  {
    var p := TakePage(entries, PAGE_LINES);
    PageSplits(entries, PAGE_LINES);
    PageRest(entries, PAGE_LINES);
    if p.rest != [] && i > 0 {
      PagesAreFull(p.rest, i - 1);
    }
  }

  /** The pages together are the unpaged listing; only the last may hold fewer than 32 lines. */
  lemma PagedListingIsUnpaged(entries: seq<Entry>)
    ensures Flatten(Pages(entries)) == Lines(entries)
    ensures forall i :: 0 <= i < |Pages(entries)| ==> |Pages(entries)[i]| <= PAGE_LINES
    ensures forall i :: 0 <= i < |Pages(entries)| - 1 ==> |Pages(entries)[i]| == PAGE_LINES
  {
    FlattenPages(entries);
    forall i | 0 <= i < |Pages(entries)|
      ensures |Pages(entries)[i]| <= PAGE_LINES
      ensures i < |Pages(entries)| - 1 ==> |Pages(entries)[i]| == PAGE_LINES
    {
      PagesAreFull(entries, i);
    }
  }

  /** A page of lines shorter than FILEINFOLEN fits list_info together with its terminating NUL. */
  lemma {:induction false} PageFits(lines: seq<Bytes>, n: nat)
    requires |lines| <= n
    requires forall i :: 0 <= i < |lines| ==> |lines[i]| < FILEINFOLEN
    ensures |Concat(lines)| <= n * (FILEINFOLEN - 1)
    ensures n == PAGE_LINES ==> |Concat(lines)| < INDEXSIZE
  {
    if lines != [] {
      PageFits(lines[1..], n - 1);
    }
  }

  /** A node of the linked list that get_dir_detail builds and get_dir consumes. */
  class DirNode {
    const name: string
    const entry: Entry
    var next: DirNode?

    constructor (name: string, entry: Entry)
      ensures this.name == name && this.entry == entry && next == null
    {
      this.name, this.entry, next := name, entry, null;
    }
  }

  /** The nodes reachable from `head`, in order, are exactly `nodes`. */
  ghost predicate Chain(head: DirNode?, nodes: seq<DirNode>)
    reads nodes
  {
    if nodes == [] then head == null
    else head == nodes[0] && Chain(nodes[0].next, nodes[1..])
  }

  ghost function EntriesOf(nodes: seq<DirNode>): (es: seq<Entry>)
    ensures |es| == |nodes|
    ensures forall i :: 0 <= i < |nodes| ==> es[i] == nodes[i].entry
  {
    seq(|nodes|, i requires 0 <= i < |nodes| => nodes[i].entry)
  }

  /** What readdir returns: every name with what lstat later says about it. */
  datatype DirEnt = DirEnt(name: string, entry: Entry)

  predicate Hidden(d: DirEnt) {
    d.name == "." || d.name == ".."
  }

  function Visible(ents: seq<DirEnt>): seq<DirEnt> {
    if ents == [] then []
    else if Hidden(ents[|ents| - 1]) then Visible(ents[..|ents| - 1])
    else Visible(ents[..|ents| - 1]) + [ents[|ents| - 1]]
  }

  /** The entries get_dir_detail lists: all but "." and "..", in directory order. */
  function Listable(ents: seq<DirEnt>): seq<Entry> {
    seq(|Visible(ents)|, i requires 0 <= i < |Visible(ents)| => Visible(ents)[i].entry)
  }

  lemma {:induction false} VisibleAppend(a: seq<DirEnt>, b: seq<DirEnt>)
    ensures Visible(a + b) == Visible(a) + Visible(b)
  {
    hide Hidden;
    if b == [] {
      assert a + b == a;
    } else {
      assert (a + b)[..|a + b| - 1] == a + b[..|b| - 1];
      VisibleAppend(a, b[..|b| - 1]);
    }
  }

  lemma ListableAppend(a: seq<DirEnt>, b: seq<DirEnt>)
    ensures Listable(a + b) == Listable(a) + Listable(b)
  {
    hide Visible;
    VisibleAppend(a, b);
  }

  /** Each directory entry is listed in its place, unless its name is "." or "..". */
  lemma ListedUnlessDots(a: seq<DirEnt>, d: DirEnt, b: seq<DirEnt>)
    ensures Listable(a + [d] + b) ==
      Listable(a) + (if d.name in {".", ".."} then [] else [d.entry]) + Listable(b)
  {
    hide Listable;
    ListableAppend(a + [d], b);
    ListableAppend(a, [d]);
    OneListed(d);
  }

  lemma OneListed(d: DirEnt)
    ensures Listable([d]) == if d.name in {".", ".."} then [] else [d.entry]
  {
    assert [d][..0] == [];
    assert Visible([d]) == if d.name in {".", ".."} then [] else [d];
  }

  lemma {:induction false} ChainSnoc(head: DirNode?, nodes: seq<DirNode>, last: DirNode)
    requires last.next == null
    requires nodes == [] ==> head == last
    requires nodes != [] ==> head == nodes[0] && nodes[|nodes| - 1].next == last
    requires forall i :: 0 <= i < |nodes| - 1 ==> nodes[i].next == nodes[i + 1]
    ensures Chain(head, nodes + [last])
  {
    if nodes == [] {
      assert Chain(null, []);
      assert (nodes + [last])[1..] == [];
    } else {
      assert (nodes + [last])[1..] == nodes[1..] + [last];
      ChainSnoc(nodes[0].next, nodes[1..], last);
    }
  }

  /** get_dir_detail: one node per visible directory entry, linked in readdir order. */
  method GetDirDetail(ents: seq<DirEnt>) returns (head: DirNode?, ghost nodes: seq<DirNode>)
    ensures Chain(head, nodes) && fresh(nodes)
    ensures |nodes| == |Visible(ents)|
    ensures forall i :: 0 <= i < |nodes| ==> nodes[i].name == Visible(ents)[i].name
    ensures EntriesOf(nodes) == Listable(ents)
  {
    head, nodes := null, [];
    var cur: DirNode? := null;
    for k := 0 to |ents|
      invariant fresh(nodes)
      invariant nodes == [] ==> head == null && cur == null
      invariant nodes != [] ==> head == nodes[0] && cur == nodes[|nodes| - 1] && cur.next == null
      invariant forall i, j :: 0 <= i < j < |nodes| ==> nodes[i] != nodes[j]
      invariant forall i :: 0 <= i < |nodes| - 1 ==> nodes[i].next == nodes[i + 1]
      invariant |nodes| == |Visible(ents[..k])|
      invariant forall i :: 0 <= i < |nodes| ==>
        nodes[i].name == Visible(ents[..k])[i].name && nodes[i].entry == Visible(ents[..k])[i].entry
    {
      assert ents[..k + 1][..k] == ents[..k];
      if Hidden(ents[k]) {
        continue;
      }
      var node := new DirNode(ents[k].name, ents[k].entry);
      if cur == null {
        head := node;
      } else {
        cur.next := node;
      }
      cur := node;
      nodes := nodes + [node];
    }
    assert ents[..|ents|] == ents;
    if nodes != [] {
      ChainSnoc(head, nodes[..|nodes| - 1], nodes[|nodes| - 1]);
      assert nodes[..|nodes| - 1] + [nodes[|nodes| - 1]] == nodes;
    }
  }

  lemma TakeStep(entries: seq<Entry>, room: nat)
    ensures room == 0 || entries == [] ==> TakePage(entries, room) == Page([], entries)
    ensures room > 0 && entries != [] ==>
      TakePage(entries, room) ==
        if entries[0].None? then TakePage(entries[1..], room)
        else var p := TakePage(entries[1..], room - 1); Page([entries[0].value] + p.lines, p.rest)
  {
  }

  /** get_dir: walks the list, appending one line per entry that lstat accepts, 32 at most. */
  method GetDir(head: DirNode?, ghost nodes: seq<DirNode>) returns (lines: seq<Bytes>, rest: DirNode?)
    requires Chain(head, nodes)
    ensures var p := TakePage(EntriesOf(nodes), PAGE_LINES);
      && lines == p.lines
      && |p.rest| <= |nodes|
      && Chain(rest, nodes[|nodes| - |p.rest|..])
      && EntriesOf(nodes[|nodes| - |p.rest|..]) == p.rest
  {
    hide Lines, TakePage;
    lines := [];
    var cur := head;
    var k: nat := 0;
    ghost var at := 0;
    ghost var all := EntriesOf(nodes);
    PageRest(all, PAGE_LINES);
    while cur != null
      invariant 0 <= at <= |nodes|
      invariant Chain(cur, nodes[at..])
      invariant k == |lines| < PAGE_LINES
      invariant TakePage(all, PAGE_LINES).lines == lines + TakePage(all[at..], PAGE_LINES - k).lines
      invariant TakePage(all, PAGE_LINES).rest == TakePage(all[at..], PAGE_LINES - k).rest
      decreases |nodes| - at
    {
      assert nodes[at..][0] == cur && nodes[at..][1..] == nodes[at + 1..];
      assert all[at..][0] == cur.entry && all[at..][1..] == all[at + 1..];
      TakeStep(all[at..], PAGE_LINES - k);
      TakeStep(all[at + 1..], 0);
      match cur.entry {
        case None =>
          cur := cur.next;
          at := at + 1;
        case Some(line) =>
          cur := cur.next;
          at := at + 1;
          lines := lines + [line];
          k := k + 1;
          if k >= PAGE_LINES {
            assert TakePage(all, PAGE_LINES).rest == all[at..];
            return lines, cur;
          }
      }
    }
    assert all[at..] == [];
    TakeStep(all[at..], PAGE_LINES - k);
    return lines, null;
  }
}
