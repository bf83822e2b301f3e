/** The size of a tree of files, as the walk adds it up while files may vanish below it. */
module Sizing {
  import opened Models
  import opened Totals

  datatype Node = File(bytes: nat) | Dir(entries: Listing)

  datatype Listing = Nothing | Entry(name: string, node: Node, rest: Listing)

  type Path = seq<string>

  /** The bytes of all files of a tree. */
  function Size(n: Node): nat {
    match n
    case File(bytes) => bytes
    case Dir(entries) => SizeOf(entries)
  }

  function SizeOf(l: Listing): nat {
    match l
    case Nothing => 0
    case Entry(_, node, rest) => Size(node) + SizeOf(rest)
  }

  /** The bytes of those files of a tree that are in `which`, by their paths. */
  function Part(n: Node, path: Path, which: set<Path>): nat {
    match n
    case File(bytes) => if path in which then bytes else 0
    case Dir(entries) => PartOf(entries, path, which)
  }

  function PartOf(l: Listing, path: Path, which: set<Path>): nat {
    match l
    case Nothing => 0
    case Entry(name, node, rest) => Part(node, path + [name], which) + PartOf(rest, path, which)
  }

  // ------------------------------------------------------------------ the walk

  /** A directory of which `rest` is still to be visited. */
  datatype Open = Open(path: Path, rest: Listing)

  function SizeLeft(todo: seq<Open>): nat {
    if todo == [] then 0 else SizeOf(todo[0].rest) + SizeLeft(todo[1..])
  }

  function PartLeft(todo: seq<Open>, which: set<Path>): nat {
    if todo == [] then 0 else PartOf(todo[0].rest, todo[0].path, which) + PartLeft(todo[1..], which)
  }

  function Nodes(l: Listing): nat {
    match l
    case Nothing => 1
    case Entry(_, node, rest) => 1 + Nodes(rest) + if node.Dir? then Nodes(node.entries) else 0
  }

  function NodesLeft(todo: seq<Open>): nat {
    if todo == [] then 0 else Nodes(todo[0].rest) + NodesLeft(todo[1..])
  }

  /** What a visit of the next entry leaves to be visited. */
  function AfterVisit(todo: seq<Open>): seq<Open>
    requires todo != [] && todo[0].rest.Entry?
  {
    var o := todo[0];
    var tail := [Open(o.path, o.rest.rest)] + todo[1..];
    if o.rest.node.Dir? then [Open(o.path + [o.rest.name], o.rest.node.entries)] + tail else tail
  }

  lemma EntryCounts(l: Listing, path: Path, which: set<Path>)
    requires l.Entry?
    ensures SizeOf(l) == SizeOf(l.rest) + if l.node.File? then l.node.bytes else SizeOf(l.node.entries)
    ensures PartOf(l, path, which) == PartOf(l.rest, path, which) +
      if l.node.Dir? then PartOf(l.node.entries, path + [l.name], which)
      else if path + [l.name] in which then l.node.bytes else 0
  {
  }

  lemma VisitCounts(todo: seq<Open>, which: set<Path>)
    requires todo != [] && todo[0].rest.Entry?
    ensures var e, next := todo[0].rest, AfterVisit(todo);
      && NodesLeft(next) < NodesLeft(todo)
      && SizeLeft(todo) == SizeLeft(next) + (if e.node.File? then e.node.bytes else 0)
      && PartLeft(todo, which) == PartLeft(next, which) +
           (if e.node.File? && todo[0].path + [e.name] in which then e.node.bytes else 0)
  {
    var o := todo[0];
    var tail := [Open(o.path, o.rest.rest)] + todo[1..];
    EntryCounts(o.rest, o.path, which);
    assert tail[1..] == todo[1..];
    assert SizeLeft(tail) == SizeOf(o.rest.rest) + SizeLeft(todo[1..]);
    assert PartLeft(tail, which) == PartOf(o.rest.rest, o.path, which) + PartLeft(todo[1..], which);
    if o.rest.node.Dir? {
      assert AfterVisit(todo)[1..] == tail;
    }
  }

  /**
   * The apparent size of a path: nothing for a missing one, the bytes of a file, and for a directory
   * the bytes of every file at any depth but those gone when the walk reaches them, which it skips.
   */
  method ApparentSize(at: Option<Node>, gone: set<Path>) returns (total: nat)
    ensures at.None? ==> total == 0
    ensures at.Some? && at.value.File? ==> total == at.value.bytes
    ensures at.Some? && at.value.Dir? ==> total + Part(at.value, [], gone) == Size(at.value)
  {
    if at.None? {
      return 0;
    }
    if at.value.File? {
      return at.value.bytes;
    }
    total := 0;
    var todo := [Open([], at.value.entries)];
    assert todo[1..] == [];
    while todo != []
      invariant total + SizeLeft(todo) + Part(at.value, [], gone) == Size(at.value) + PartLeft(todo, gone)
      decreases NodesLeft(todo)
    {
      var o := todo[0];
      if o.rest.Nothing? {
        todo := todo[1..];
      } else {
        VisitCounts(todo, gone);
        if o.rest.node.File? && o.path + [o.rest.name] !in gone {
          total := total + o.rest.node.bytes;
        }
        todo := AfterVisit(todo);
      }
    }
  }

  // ------------------------------------------------------- what the sizes mean

  /** Only what vanished is missed: the whole size when nothing did, and never more than it. */
  lemma {:induction false} PartWithin(n: Node, path: Path, which: set<Path>)
    ensures Part(n, path, which) <= Size(n)
    ensures which == {} ==> Part(n, path, which) == 0
    decreases n
  {
    if n.Dir? {
      PartOfWithin(n.entries, path, which);
    }
  }

  lemma {:induction false} PartOfWithin(l: Listing, path: Path, which: set<Path>)
    ensures PartOf(l, path, which) <= SizeOf(l)
    ensures which == {} ==> PartOf(l, path, which) == 0
    decreases l
  {
    if l.Entry? {
      PartWithin(l.node, path + [l.name], which);
      PartOfWithin(l.rest, path, which);
    }
  }

  function Names(l: Listing): set<string> {
    match l
    case Nothing => {}
    case Entry(name, _, rest) => {name} + Names(rest)
  }

  predicate NamesDiffer(l: Listing) {
    match l
    case Nothing => true
    case Entry(name, _, rest) => name !in Names(rest) && NamesDiffer(rest)
  }

  /** A directory seen as its top-level entries, each with the bytes of the tree below it. */
  function Sizes(l: Listing): (m: map<string, nat>)
    ensures m.Keys == Names(l)
  {
    match l
    case Nothing => map[]
    case Entry(name, node, rest) => Sizes(rest)[name := Size(node)]
  }

  /** Quarantine and trash as one number for each entry lose nothing: the total is the size of the tree. */
  lemma {:induction false} EntriesAddUp(l: Listing)
    requires NamesDiffer(l)
    ensures Total(Sizes(l)) == SizeOf(l)
  {
    if l.Entry? {
      EntriesAddUp(l.rest);
      TotalUpdate(Sizes(l.rest), l.name, Size(l.node));
    }
  }
}
