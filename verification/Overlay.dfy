/** The overlay mount a branch container assembles: for every path the first
    layer that mentions it decides, and a whiteout decides for "absent". */
module Overlay {
  import opened Options

  type Path = string
  datatype Entry = File(data: string) | Whiteout
  type Content = map<Path, Entry>

  /** What a reader of the mount finds at `p`, searching the layers top down. */
  function Lookup(layers: seq<Content>, p: Path): Option<string> {
    if layers == [] then None
    else if p in layers[0] then
      (match layers[0][p] case File(d) => Some(d) case Whiteout => None)
    else Lookup(layers[1..], p)
  }

  /** One layer over a tree: what the layer mentions it decides, the rest
      shines through. */
  function Over(top: Content, tree: map<Path, string>): map<Path, string> {
    map p | p in tree.Keys + top.Keys && (p in top ==> top[p].File?) ::
      if p in top then top[p].data else tree[p]
  }

  /** The merged tree of a stack of layers, topmost first. */
  function Merged(layers: seq<Content>): map<Path, string> {
    if layers == [] then map[] else Over(layers[0], Merged(layers[1..]))
  }

  /** The merged tree holds exactly what a top-down search finds. */
  lemma {:induction false} MergedIsLookup(layers: seq<Content>, p: Path)
    ensures p in Merged(layers) <==> Lookup(layers, p).Some?
    ensures p in Merged(layers) ==> Merged(layers)[p] == Lookup(layers, p).value
  {
    if layers != [] {
      MergedIsLookup(layers[1..], p);
    }
  }

  /** An empty layer on top changes nothing: this is why a freeze is invisible. */
  lemma EmptyLayerOnTop(layers: seq<Content>)
    ensures Merged([map[]] + layers) == Merged(layers)
  {
    assert ([map[]] + layers)[1..] == layers;
  }

  /** A guest write lands in the top layer and is read back; a guest delete
      leaves a whiteout and the path is gone. No other path moves. */
  lemma WriteThrough(top: Content, lower: seq<Content>, p: Path, data: string)
    ensures Merged([top[p := File(data)]] + lower) == Merged([top] + lower)[p := data]
    ensures Merged([top[p := Whiteout]] + lower) == Merged([top] + lower) - {p}
  {
    assert forall c: Content :: ([c] + lower)[1..] == lower;
    OverWrite(top, Merged(lower), p, data);
  }

  lemma OverWrite(top: Content, tree: map<Path, string>, p: Path, data: string)
    ensures Over(top[p := File(data)], tree) == Over(top, tree)[p := data]
    ensures Over(top[p := Whiteout], tree) == Over(top, tree) - {p}
  {
    assert Over(top[p := File(data)], tree) == Over(top, tree)[p := data];
    assert Over(top[p := Whiteout], tree) == Over(top, tree) - {p};
  }
}
