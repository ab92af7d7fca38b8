/**
 * The 256-way byte trie of token definitions. Every node on the path of a
 * key (its bytes read unsigned) records, in insertion order, the values
 * whose key passes through it; a lookup returns the first value recorded
 * at the node it reaches.
 *
 * A node is identified by its path from the root, so the tree is a map from
 * non-empty paths to the value lists of the nodes that exist.
 */
module SearchTrees {
  import opened Wrappers
  import opened JavaLang
  import opened ByteTokenDef

  /** A byte array read as unsigned indices (`b & 0xff`). */
  function Unsigned(bs: seq<jbyte>): (u: seq<uint8>)
    ensures |u| == |bs|
    ensures forall i :: 0 <= i < |bs| ==> u[i] == LowByte(bs[i])
  {
    if bs == [] then [] else Unsigned(bs[..|bs| - 1]) + [LowByte(bs[|bs| - 1])]
  }

  /** The path a definition is stored under: its full bytes, unsigned. */
  function Key(d: TokenDef): seq<uint8>
  {
    Unsigned(d.Bytes())
  }

  predicate IsPrefix(p: seq<uint8>, s: seq<uint8>)
  {
    |p| <= |s| && s[..|p|] == p
  }

  /** The values, in order, whose key passes through the node at path p. */
  function Through(ds: seq<TokenDef>, p: seq<uint8>): (r: seq<TokenDef>)
    ensures |r| <= |ds|
  {
    if ds == [] then []
    else Through(ds[..|ds| - 1], p) + (if IsPrefix(p, Key(ds[|ds| - 1])) then [ds[|ds| - 1]] else [])
  }

  lemma ThroughAppend(ds: seq<TokenDef>, v: TokenDef, p: seq<uint8>)
    ensures Through(ds + [v], p) == Through(ds, p) + (if IsPrefix(p, Key(v)) then [v] else [])
  {
    assert (ds + [v])[..|ds|] == ds;
  }

  /**
   * The reference lookup: the earliest value whose key has p as a prefix.
   */
  function FirstWithPrefix(ds: seq<TokenDef>, p: seq<uint8>): (r: Option<TokenDef>)
  {
    if ds == [] then None
    else if IsPrefix(p, Key(ds[0])) then Some(ds[0])
    else FirstWithPrefix(ds[1..], p)
  }

  /** FirstWithPrefix finds nothing exactly when no key has p as a prefix. */
  lemma {:induction false} FirstWithPrefixNone(ds: seq<TokenDef>, p: seq<uint8>)
    ensures FirstWithPrefix(ds, p).None? <==> forall i :: 0 <= i < |ds| ==> !IsPrefix(p, Key(ds[i]))
    decreases |ds|
  {
    if ds != [] && !IsPrefix(p, Key(ds[0])) {
      FirstWithPrefixNone(ds[1..], p);
      assert forall i :: 0 < i < |ds| ==> ds[i] == ds[1..][i - 1];
    }
  }

  /**
   * What FirstWithPrefix finds is the value at the smallest index whose key
   * has p as a prefix.
   */
  lemma {:induction false} FirstWithPrefixSpec(ds: seq<TokenDef>, p: seq<uint8>)
    ensures FirstWithPrefix(ds, p).Some? ==>
              exists i :: 0 <= i < |ds| && ds[i] == FirstWithPrefix(ds, p).value && IsPrefix(p, Key(ds[i]))
                          && forall j :: 0 <= j < i ==> !IsPrefix(p, Key(ds[j]))
    decreases |ds|
  {
    if ds != [] && !IsPrefix(p, Key(ds[0])) {
      var r := FirstWithPrefix(ds[1..], p);
      if r.Some? {
        FirstWithPrefixSpec(ds[1..], p);
        var k :| 0 <= k < |ds[1..]| && ds[1..][k] == r.value && IsPrefix(p, Key(ds[1..][k]))
                 && forall j :: 0 <= j < k ==> !IsPrefix(p, Key(ds[1..][j]));
        assert ds[k + 1] == r.value;
        assert forall j :: 0 < j < k + 1 ==> ds[j] == ds[1..][j - 1];
      }
    }
  }

  /** The node lists and the reference lookup agree: the head of the node list is the first match. */
  lemma {:induction false} ThroughFirst(ds: seq<TokenDef>, p: seq<uint8>)
    ensures Through(ds, p) == [] <==> FirstWithPrefix(ds, p).None?
    ensures Through(ds, p) != [] ==> FirstWithPrefix(ds, p) == Some(Through(ds, p)[0])
    decreases |ds|
  {
    if ds != [] {
      var init := ds[..|ds| - 1];
      var last := ds[|ds| - 1];
      assert ds == init + [last];
      ThroughFirst(init, p);
      FirstAppend(init, last, p);
    }
  }

  lemma {:induction false} FirstAppend(ds: seq<TokenDef>, v: TokenDef, p: seq<uint8>)
    ensures FirstWithPrefix(ds + [v], p) ==
            (if FirstWithPrefix(ds, p).Some? then FirstWithPrefix(ds, p)
             else if IsPrefix(p, Key(v)) then Some(v) else None)
    decreases |ds|
  {
    if ds == [] {
      assert [] + [v] == [v];
    } else {
      assert (ds + [v])[1..] == ds[1..] + [v];
      FirstAppend(ds[1..], v, p);
    }
  }

  lemma PrefixTrans(q: seq<uint8>, p: seq<uint8>, s: seq<uint8>)
    requires IsPrefix(q, p) && IsPrefix(p, s)
    ensures IsPrefix(q, s)
  {
    assert s[..|q|] == s[..|p|][..|q|];
  }

  /** A node below a missing node is missing too: no key passes through it. */
  lemma {:induction false} ThroughShorter(ds: seq<TokenDef>, p: seq<uint8>, q: seq<uint8>)
    requires IsPrefix(q, p)
    ensures Through(ds, p) != [] ==> Through(ds, q) != []
    decreases |ds|
  {
    if ds != [] {
      var last := ds[|ds| - 1];
      if IsPrefix(p, Key(last)) {
        PrefixTrans(q, p, Key(last));
      }
      ThroughShorter(ds[..|ds| - 1], p, q);
    }
  }

  /**
   * The map holds exactly one node per non-empty prefix of a key in ds, and
   * that node's list is the values through it, in order.
   */
  ghost predicate Represents(nodes: map<seq<uint8>, seq<TokenDef>>, ds: seq<TokenDef>)
  {
    (forall p :: p in nodes ==> |p| > 0 && nodes[p] == Through(ds, p) && nodes[p] != []) &&
    (forall p :: |p| > 0 && Through(ds, p) != [] ==> p in nodes)
  }

  /** The value list of a node after v has been recorded on the first `level` nodes of its path. */
  function Recorded(ds: seq<TokenDef>, v: TokenDef, p: seq<uint8>, level: nat): seq<TokenDef>
  {
    Through(ds, p) + (if IsPrefix(p, Key(v)) && |p| <= level then [v] else [])
  }

  /**
   * The state of Add after recording v on the first `level` nodes of its
   * path: every node holds its Recorded list, and every path with a
   * non-empty Recorded list is a node.
   */
  ghost predicate PartlyAdded(nodes: map<seq<uint8>, seq<TokenDef>>, ds: seq<TokenDef>, v: TokenDef, level: nat)
  {
    NodesRecorded(nodes, ds, v, level) && AllRecordedPresent(nodes, ds, v, level)
  }

  ghost predicate NodesRecorded(nodes: map<seq<uint8>, seq<TokenDef>>, ds: seq<TokenDef>, v: TokenDef, level: nat)
  {
    forall p :: p in nodes ==> |p| > 0 && nodes[p] == Recorded(ds, v, p, level) && nodes[p] != []
  }

  ghost predicate AllRecordedPresent(nodes: map<seq<uint8>, seq<TokenDef>>, ds: seq<TokenDef>, v: TokenDef, level: nat)
  {
    forall p :: |p| > 0 && Recorded(ds, v, p, level) != [] ==> p in nodes
  }

  lemma StartAdd(nodes: map<seq<uint8>, seq<TokenDef>>, ds: seq<TokenDef>, v: TokenDef)
    requires Represents(nodes, ds)
    ensures PartlyAdded(nodes, ds, v, 0)
  {
    forall p | |p| > 0 && Recorded(ds, v, p, 0) != []
      ensures p in nodes
    {
      assert Recorded(ds, v, p, 0) == Through(ds, p);
    }
  }

  lemma FinishAdd(nodes: map<seq<uint8>, seq<TokenDef>>, ds: seq<TokenDef>, v: TokenDef)
    requires PartlyAdded(nodes, ds, v, |Key(v)|)
    ensures Represents(nodes, ds + [v])
  {
    forall p | |p| > 0
      ensures Through(ds + [v], p) == Recorded(ds, v, p, |Key(v)|)
    {
      ThroughAppend(ds, v, p);
    }
  }

  /** After v is recorded, the node at the end of its key holds one more value than before. */
  lemma LeafCount(nodes: map<seq<uint8>, seq<TokenDef>>, ds: seq<TokenDef>, v: TokenDef)
    requires |Key(v)| > 0
    requires Represents(nodes, ds + [v])
    ensures Key(v) in nodes
    ensures |nodes[Key(v)]| == |Through(ds, Key(v))| + 1
  {
    assert IsPrefix(Key(v), Key(v));
    ThroughAppend(ds, v, Key(v));
  }

  /** Only the node at the next position of v's path changes its list. */
  lemma RecordedStep(ds: seq<TokenDef>, v: TokenDef, p: seq<uint8>, level: nat)
    requires level < |Key(v)|
    ensures p != Key(v)[..level + 1] ==> Recorded(ds, v, p, level + 1) == Recorded(ds, v, p, level)
    ensures p == Key(v)[..level + 1] ==> Recorded(ds, v, p, level + 1) == Through(ds, p) + [v]
    ensures p == Key(v)[..level + 1] ==> Recorded(ds, v, p, level) == Through(ds, p)
  {
    if IsPrefix(p, Key(v)) && |p| == level + 1 {
      assert p == Key(v)[..|p|];
    }
  }

  /** The map after one step of Add: the node at the next path position, created if missing, gets v. */
  function StepNodes(nodes: map<seq<uint8>, seq<TokenDef>>, path: seq<uint8>, v: TokenDef): map<seq<uint8>, seq<TokenDef>>
  {
    nodes[path := (if path in nodes then nodes[path] else []) + [v]]
  }

  lemma StepNodesRecorded(nodes: map<seq<uint8>, seq<TokenDef>>, ds: seq<TokenDef>, v: TokenDef, level: nat)
    requires level < |Key(v)|
    requires PartlyAdded(nodes, ds, v, level)
    ensures NodesRecorded(StepNodes(nodes, Key(v)[..level + 1], v), ds, v, level + 1)
  {
    var path := Key(v)[..level + 1];
    var n2 := StepNodes(nodes, path, v);
    RecordedStep(ds, v, path, level);
    forall p | p in n2
      ensures |p| > 0 && n2[p] == Recorded(ds, v, p, level + 1) && n2[p] != []
    {
      RecordedStep(ds, v, p, level);
    }
  }

  lemma StepAllPresent(nodes: map<seq<uint8>, seq<TokenDef>>, ds: seq<TokenDef>, v: TokenDef, level: nat)
    requires level < |Key(v)|
    requires AllRecordedPresent(nodes, ds, v, level)
    ensures AllRecordedPresent(StepNodes(nodes, Key(v)[..level + 1], v), ds, v, level + 1)
  {
    var path := Key(v)[..level + 1];
    var n2 := StepNodes(nodes, path, v);
    forall p | |p| > 0 && Recorded(ds, v, p, level + 1) != []
      ensures p in n2
    {
      RecordedStep(ds, v, p, level);
    }
  }

  /** One step of Add keeps the partial-insertion invariant, one level further. */
  lemma AddStep(nodes: map<seq<uint8>, seq<TokenDef>>, ds: seq<TokenDef>, v: TokenDef, level: nat)
    requires level < |Key(v)|
    requires PartlyAdded(nodes, ds, v, level)
    ensures PartlyAdded(StepNodes(nodes, Key(v)[..level + 1], v), ds, v, level + 1)
  {
    StepNodesRecorded(nodes, ds, v, level);
    StepAllPresent(nodes, ds, v, level);
  }

  /** At the leaf: v is recorded everywhere, and the leaf holds another value exactly when an earlier key passes through it. */
  lemma AddLeaf(nodes: map<seq<uint8>, seq<TokenDef>>, ds: seq<TokenDef>, v: TokenDef)
    requires |Key(v)| > 0
    requires PartlyAdded(nodes, ds, v, |Key(v)|)
    ensures Represents(nodes, ds + [v]) && Key(v) in nodes
    ensures |nodes[Key(v)]| > 1 <==> Through(ds, Key(v)) != []
  {
    FinishAdd(nodes, ds, v);
    LeafCount(nodes, ds, v);
  }

  class SearchTree {
    /** The node at each existing path, with the values recorded there. */
    var nodes: map<seq<uint8>, seq<TokenDef>>
    /** Every value ever passed to Add, in order. */
    ghost var added: seq<TokenDef>

    /**
     * Exactly the non-empty prefixes of added keys are nodes, and each node
     * records the values through it in insertion order.
     */
    ghost predicate Valid()
      reads this
    {
      Represents(nodes, added)
    }

    constructor ()
      ensures Valid() && added == []
    {
      nodes := map[];
      added := [];
    }

    /**
     * Records `value` on every node of its key's path, creating missing nodes.
     * Fails when the node at the end of the key then holds more than one value,
     * that is, when an earlier key has this key as a prefix; the value stays
     * recorded, as the insertion happens before the check.
     */
    method Add(value: TokenDef) returns (r: Result<()>)
      requires Valid()
      modifies this
      ensures Valid()
      ensures added == old(added) + [value]
      ensures r.Err? <==> |Key(value)| > 0 && Through(old(added), Key(value)) != []
      ensures r.Err? ==> r.error == InvalidConfiguration
    {
      var index := value.Bytes();
      var key := Unsigned(index);
      ghost var ds := added;
      StartAdd(nodes, ds, value);
      var level := 0;
      while level < |index|
        invariant 0 <= level <= |index|
        invariant |index| > 0 ==> level < |index|
        invariant added == ds
        invariant PartlyAdded(nodes, ds, value, level)
      {
        var path := key[..level + 1];
        AddStep(nodes, ds, value, level);
        // a missing child is created empty, then the value is appended
        nodes := StepNodes(nodes, path, value);
        if level == |index| - 1 {
          assert path == key;
          AddLeaf(nodes, ds, value);
          added := ds + [value];
          if |nodes[path]| > 1 {
            return Err(InvalidConfiguration);
          }
          return Ok(());
        }
        level := level + 1;
      }
      // only an empty key leaves the loop without returning
      FinishAdd(nodes, ds, value);
      added := ds + [value];
      return Ok(());
    }

    /**
     * Walks the first indexLen bytes of `search`; the result is the first
     * value recorded at the node reached, or None when a node is missing or
     * indexLen is not positive. The full and partial modes do the same.
     */
    method Find(search: seq<jbyte>, indexLen: int, fullMatch: bool) returns (r: Option<TokenDef>)
      requires Valid()
      requires indexLen <= |search|
      ensures indexLen <= 0 ==> r.None?
      ensures indexLen > 0 ==> r == FirstWithPrefix(added, Unsigned(search[..indexLen]))
    {
      if indexLen <= 0 {
        return None;
      }
      var key := Unsigned(search[..indexLen]);
      var level := 0;
      while level < indexLen
        invariant 0 <= level < indexLen
        invariant level > 0 ==> key[..level] in nodes
      {
        var path := key[..level + 1];
        if path !in nodes {
          ThroughShorter(added, key, path);
          ThroughFirst(added, key);
          return None;
        }
        if level == indexLen - 1 {
          assert path == key;
          ThroughFirst(added, key);
          return Some(nodes[path][0]);
        }
        level := level + 1;
      }
      assert false;
    }

    method FindFull(search: seq<jbyte>, indexLen: int) returns (r: Option<TokenDef>)
      requires Valid()
      requires indexLen <= |search|
      ensures indexLen <= 0 ==> r.None?
      ensures indexLen > 0 ==> r == FirstWithPrefix(added, Unsigned(search[..indexLen]))
    {
      r := Find(search, indexLen, true);
    }

    method FindPartial(pattern: seq<jbyte>, patternIndex: int) returns (r: Option<TokenDef>)
      requires Valid()
      requires patternIndex <= |pattern|
      ensures patternIndex <= 0 ==> r.None?
      ensures patternIndex > 0 ==> r == FirstWithPrefix(added, Unsigned(pattern[..patternIndex]))
    {
      r := Find(pattern, patternIndex, false);
    }
  }
}
