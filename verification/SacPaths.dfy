// Path resolution of the SAC file system (`find_node`) over a node table that may be ill-formed.
module SacPaths {
  /** The fields of `sac_file_t` that `find_node` reads. */
  datatype Node = Node(fname: string, parent: int)

  /** What reading each block as a node yields, for every block number. */
  type Disk = int -> Node

  const NODES: nat := 1024

  // ---- what resolving a path means ----

  /** Block `b` has the name of level `k`, its parents those of the levels above, and level 0 hangs from block 0. */
  ghost predicate Spells(disk: Disk, b: int, path: seq<string>, k: nat)
    requires k < |path|
    decreases k
  {
    && disk(b).fname == path[k]
    && (disk(b).parent == 0 <==> k == 0)
    && (k > 0 ==> Spells(disk, disk(b).parent, path, k - 1))
  }

  ghost predicate Resolves(disk: Disk, b: int, path: seq<string>) {
    path != [] && Spells(disk, b, path, |path| - 1)
  }

  /** A chain of blocks from the root level to the node, one per path component. */
  ghost predicate IsChain(disk: Disk, chain: seq<int>, path: seq<string>) {
    && |chain| == |path| > 0
    && (forall i :: 0 <= i < |chain| ==> disk(chain[i]).fname == path[i])
    && disk(chain[0]).parent == 0
    && forall i :: 0 < i < |chain| ==> Linked(disk, chain, i)
  }

  ghost predicate Linked(disk: Disk, chain: seq<int>, i: int)
    requires 0 < i < |chain|
  {
    disk(chain[i]).parent == chain[i - 1] != 0
  }

  lemma {:induction false} ChainOf(disk: Disk, b: int, path: seq<string>, k: nat) returns (chain: seq<int>)
    requires k < |path| && Spells(disk, b, path, k)
    ensures IsChain(disk, chain, path[..k + 1]) && chain[k] == b
    decreases k
  {
    if k == 0 {
      chain := [b];
    } else {
      var up := ChainOf(disk, disk(b).parent, path, k - 1);
      chain := up + [b];
      forall i | 0 < i < |chain| ensures Linked(disk, chain, i) {
        assert i < k ==> Linked(disk, up, i);
      }
    }
  }

  lemma {:induction false} ChainSpells(disk: Disk, chain: seq<int>, path: seq<string>, k: nat)
    requires IsChain(disk, chain, path) && k < |path|
    ensures Spells(disk, chain[k], path, k)
  {
    if k > 0 {
      ChainSpells(disk, chain, path, k - 1);
      assert Linked(disk, chain, k);
    }
  }

  /** Resolving is having a parent chain that spells the path and ends at parent 0 at its length. */
  lemma ResolvesIffChain(disk: Disk, b: int, path: seq<string>)
    ensures Resolves(disk, b, path) <==> exists chain :: IsChain(disk, chain, path) && chain[|path| - 1] == b
  {
    if Resolves(disk, b, path) {
      var chain := ChainOf(disk, b, path, |path| - 1);
      assert path[..|path| - 1 + 1] == path;
      assert IsChain(disk, chain, path);
    }
    forall chain | IsChain(disk, chain, path) && chain[|path| - 1] == b ensures Resolves(disk, b, path) {
      ChainSpells(disk, chain, path, |path| - 1);
    }
  }

  // ---- find_node ----

  predicate Named(disk: Disk, start: int, name: string, i: int) {
    disk(start + i).fname == name
  }

  /** The table positions whose name is the last component, in table order. */
  function Matches(disk: Disk, start: int, name: string, count: nat): seq<int> {
    if count == 0 then []
    else Matches(disk, start, name, count - 1) + (if Named(disk, start, name, count - 1) then [count - 1] else [])
  }

  lemma {:induction false} MatchesAre(disk: Disk, start: int, name: string, count: nat)
    ensures var r := Matches(disk, start, name, count);
      && (forall i :: 0 <= i < |r| ==> 0 <= r[i] < count && Named(disk, start, name, r[i]))
      && (forall i, j :: 0 <= i < j < |r| ==> r[i] < r[j])
      && forall i :: 0 <= i < count && Named(disk, start, name, i) ==> i in r
  {
    if count > 0 {
      MatchesAre(disk, start, name, count - 1);
      var shorter := Matches(disk, start, name, count - 1);
      var r := Matches(disk, start, name, count);
      if Named(disk, start, name, count - 1) {
        assert r == shorter + [count - 1];
        assert forall i :: i in shorter ==> i in r;
        assert r[|shorter|] == count - 1;
      } else {
        assert r == shorter;
      }
    }
  }

  /** The parent walk from a match: the names of levels |path| - 2 down to 0, then parent 0. */
  ghost predicate WalkSucceeds(disk: Disk, parent: int, path: seq<string>, iterations: nat)
    requires 1 <= iterations
    decreases |path| - iterations
  {
    if parent == 0 then |path| == iterations
    else iterations < |path| && disk(parent).fname == path[|path| - 1 - iterations]
         && WalkSucceeds(disk, disk(parent).parent, path, iterations + 1)
  }

  /** The inner loop of `find_node` on one match: terminates on every disk, cycles included. */
  method Walk(disk: Disk, match_block: int, path: seq<string>) returns (flag_found: bool)
    requires path != []
    ensures flag_found <==> WalkSucceeds(disk, disk(match_block).parent, path, 1)
  {
    flag_found := false;
    var flag_discarded := false;
    var parent := disk(match_block).parent;
    var iterations := 1;
    var path_level := |path| - 1;
    while !flag_found && !flag_discarded
      invariant 1 <= iterations
      invariant !(flag_found && flag_discarded)
      invariant !flag_found && !flag_discarded ==>
        iterations <= |path|
        && (WalkSucceeds(disk, disk(match_block).parent, path, 1) <==> WalkSucceeds(disk, parent, path, iterations))
      invariant flag_found ==> WalkSucceeds(disk, disk(match_block).parent, path, 1)
      invariant flag_discarded ==> !WalkSucceeds(disk, disk(match_block).parent, path, 1)
      decreases !flag_found && !flag_discarded, |path| + 1 - iterations
    {
      if parent == 0 {
        if |path| == iterations {
          flag_found := true;
        } else {
          flag_discarded := true;
        }
      } else {
        var parent_node := disk(parent);
        if |path| > iterations {
          if parent_node.fname != path[path_level - iterations] {
            flag_discarded := true;
          }
        } else {
          flag_discarded := true;
        }
        parent := parent_node.parent;
      }
      iterations := iterations + 1;
    }
  }

  /** The first loop of `find_node`: the blocks with the last component's name, counted from 2. */
  method PossibleMatches(disk: Disk, start: int, name: string) returns (posible_matches: seq<int>)
    ensures posible_matches == Blocks(Matches(disk, start, name, NODES))
  {
    posible_matches := [];
    var i := 0;
    while i < NODES
      invariant 0 <= i <= NODES
      invariant posible_matches == Blocks(Matches(disk, start, name, i))
    {
      if disk(start + i).fname == name {
        posible_matches := posible_matches + [2 + i];
      }
      i := i + 1;
    }
  }

  /** `find_node`: 0, or the block of the match that resolves the path. `start` is node_table_start.
      The discard flag is set once and never cleared, so after one rejected match no other is walked. */
  method FindNode(disk: Disk, start: int, path: seq<string>) returns (node: int)
    requires path != []
    ensures node == Found(disk, start, path)
  {
    hide Matches;
    var posible_matches := PossibleMatches(disk, start, path[|path| - 1]);
    if |posible_matches| == 0 {
      return 0;
    }
    var flag_found := false;
    var flag_discarded := false;
    var matches_count := |posible_matches|;
    var current_match := matches_count - 1;
    var match_found := -1;
    ghost var top := posible_matches[current_match];
    ghost var ok := WalkSucceeds(disk, disk(top).parent, path, 1);
    while !flag_found && matches_count > 0
      invariant current_match == matches_count - 1 && 0 <= matches_count <= |posible_matches|
      invariant matches_count == |posible_matches| ==> !flag_found && !flag_discarded
      invariant matches_count < |posible_matches| ==> flag_found == ok && flag_discarded == !ok
      invariant flag_found ==> match_found == |posible_matches| - 1
      decreases matches_count
    {
      if !flag_discarded {
        flag_found := Walk(disk, posible_matches[current_match], path);
        flag_discarded := !flag_found;
        if flag_found {
          match_found := current_match;
        }
      }
      matches_count := matches_count - 1;
      current_match := current_match - 1;
    }
    return if flag_found then posible_matches[match_found] else 0;
  }

  function Blocks(positions: seq<int>): seq<int> {
    seq(|positions|, i requires 0 <= i < |positions| => 2 + positions[i])
  }

  /** Only the highest-numbered match is ever walked. */
  ghost function Found(disk: Disk, start: int, path: seq<string>): int
    requires path != []
  {
    var matches := Matches(disk, start, path[|path| - 1], NODES);
    if matches == [] then 0
    else
      var top := 2 + matches[|matches| - 1];
      if WalkSucceeds(disk, disk(top).parent, path, 1) then top else 0
  }

  lemma {:induction false} WalkIsSpelling(disk: Disk, b: int, path: seq<string>, k: nat)
    requires k < |path| && disk(b).fname == path[k]
    ensures WalkSucceeds(disk, disk(b).parent, path, |path| - k) <==> Spells(disk, b, path, k)
    decreases k
  {
    if k > 0 && disk(b).parent != 0 && disk(disk(b).parent).fname == path[k - 1] {
      WalkIsSpelling(disk, disk(b).parent, path, k - 1);
    }
  }

  /** Block `b` is a node of the table that resolves the path. */
  ghost predicate IsAnswer(disk: Disk, b: int, path: seq<string>) {
    2 <= b < 2 + NODES && Resolves(disk, b, path)
  }

  /** The highest-numbered node of the table with the last component's name. */
  ghost predicate IsTop(disk: Disk, b: int, path: seq<string>)
    requires path != []
  {
    && 2 <= b < 2 + NODES && disk(b).fname == path[|path| - 1]
    && forall c :: b < c < 2 + NODES ==> disk(c).fname != path[|path| - 1]
  }

  /** With the table at block 2, an answer is always a node whose parent chain spells the path. */
  lemma FindNodeSound(disk: Disk, path: seq<string>)
    requires path != []
    ensures Found(disk, 2, path) != 0 ==>
      IsAnswer(disk, Found(disk, 2, path), path) && IsTop(disk, Found(disk, 2, path), path)
  {
    var matches := Matches(disk, 2, path[|path| - 1], NODES);
    if matches != [] {
      TopMatch(disk, path);
      WalkIsSpelling(disk, 2 + matches[|matches| - 1], path, |path| - 1);
    }
  }

  lemma TopMatch(disk: Disk, path: seq<string>)
    requires path != [] && Matches(disk, 2, path[|path| - 1], NODES) != []
    ensures var matches := Matches(disk, 2, path[|path| - 1], NODES); IsTop(disk, 2 + matches[|matches| - 1], path)
  {
    var name := path[|path| - 1];
    var matches := Matches(disk, 2, name, NODES);
    MatchesAre(disk, 2, name, NODES);
    var top := 2 + matches[|matches| - 1];
    forall c | top < c < 2 + NODES ensures disk(c).fname != name {
      assert Named(disk, 2, name, c - 2) ==> c - 2 in matches;
    }
  }

  /** It answers exactly when the highest-numbered node of that name resolves the path. */
  lemma FindNodeIff(disk: Disk, path: seq<string>)
    requires path != []
    ensures Found(disk, 2, path) != 0 <==> exists b :: IsTop(disk, b, path) && Resolves(disk, b, path)
  {
    FindNodeSound(disk, path);
    var name := path[|path| - 1];
    var matches := Matches(disk, 2, name, NODES);
    MatchesAre(disk, 2, name, NODES);
    if Found(disk, 2, path) == 0 {
      forall b | IsTop(disk, b, path) ensures !Resolves(disk, b, path) {
        assert Named(disk, 2, name, b - 2);
        assert b - 2 in matches;
        TopMatch(disk, path);
        WalkIsSpelling(disk, b, path, |path| - 1);
      }
    }
  }

  /** A node that resolves the path is the one answered exactly when no later node of the table shares its name,
      wherever in the tree that other node is. */
  lemma FoundIffNotHidden(disk: Disk, b: int, path: seq<string>)
    requires path != [] && IsAnswer(disk, b, path)
    ensures Found(disk, 2, path) == b <==> forall c :: b < c < 2 + NODES ==> disk(c).fname != disk(b).fname
  {
    FindNodeSound(disk, path);
    var name := path[|path| - 1];
    var matches := Matches(disk, 2, name, NODES);
    MatchesAre(disk, 2, name, NODES);
    assert disk(b).fname == name;
    if forall c :: b < c < 2 + NODES ==> disk(c).fname != name {
      assert IsTop(disk, b, path);
      FindNodeIff(disk, path);
      var found := Found(disk, 2, path);
      assert IsTop(disk, found, path);
    }
  }

  /** Answers name a block with the last component's name, for every table and path, exactly when the table
      starts at block 2: positions are read from `start` but answered from 2. */
  lemma AnswersAreNamedIff(start: int)
    ensures start == 2 <==>
      forall disk: Disk, path: seq<string> | path != [] && Found(disk, start, path) != 0 ::
        disk(Found(disk, start, path)).fname == path[|path| - 1]
  {
    if start == 2 {
      forall disk: Disk, path: seq<string> | path != [] && Found(disk, start, path) != 0
        ensures disk(Found(disk, start, path)).fname == path[|path| - 1]
      {
        FindNodeSound(disk, path);
      }
    } else {
      var disk: Disk := (b: int) => Node(if b == start then "a" else "b", 0);
      var matches := Matches(disk, start, "a", NODES);
      MatchesAre(disk, start, "a", NODES);
      assert Named(disk, start, "a", 0) && 0 in matches;
      assert forall i :: 0 <= i < |matches| ==> matches[i] == 0;
      assert matches[|matches| - 1] == 0;
      assert WalkSucceeds(disk, disk(2).parent, ["a"], 1);
      assert Found(disk, start, ["a"]) == 2;
      assert disk(Found(disk, start, ["a"])).fname == "b";
    }
  }

  function TwoNotes(b: int): Node {
    if b == 2 then Node("root", 0)
    else if b == 3 then Node("notes", 0)
    else if b == 4 then Node("dir", 0)
    else if b == 5 then Node("notes", 4)
    else Node("", 0)
  }

  /** The path "notes" exists, in block 3, but "dir/notes" in block 5 hides it. */
  lemma HiddenByLaterNode()
    ensures IsAnswer(TwoNotes, 3, ["notes"]) && Found(TwoNotes, 2, ["notes"]) == 0
  {
    assert Spells(TwoNotes, 3, ["notes"], 0);
    hide Found, Spells, IsTop, TwoNotes;
    FindNodeIff(TwoNotes, ["notes"]);
    LaterFails();
    forall b | IsTop(TwoNotes, b, ["notes"]) ensures !Resolves(TwoNotes, b, ["notes"]) {
      TopIsLater(b);
    }
  }

  lemma LaterFails()
    ensures !Resolves(TwoNotes, 5, ["notes"])
  {
    assert TwoNotes(5).parent == 4;
  }

  lemma TopIsLater(b: int)
    requires IsTop(TwoNotes, b, ["notes"])
    ensures b == 5
  {
    assert TwoNotes(5).fname == "notes";
    assert TwoNotes(b).fname == "notes";
    assert |TwoNotes(b).fname| == 5;
  }
}
