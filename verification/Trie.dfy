/** Topic patterns: `*` stands for exactly one word, `#` for zero or more
    (section 3.1.3.3 of AMQP 0-9-1). Words are what splitting on `.` yields. */
module TopicRule {

  type Word = string
  type Words = seq<Word>

  const STAR: Word := "*"
  const HASH: Word := "#"

  /** What one pattern word may stand for. */
  predicate Covers(word: Word, segment: Words) {
    if word == HASH then true
    else if word == STAR then |segment| == 1
    else segment == [word]
  }

  function Flatten(segments: seq<Words>): Words {
    if segments == [] then [] else segments[0] + Flatten(segments[1..])
  }

  /** The declarative rule: the topic can be cut into consecutive segments, one
      per pattern word, each covered by its word. */
  ghost predicate TopicMatches(pattern: Words, topic: Words) {
    exists segments: seq<Words> :: Splits(pattern, topic, segments)
  }

  ghost predicate Splits(pattern: Words, topic: Words, segments: seq<Words>) {
    && |segments| == |pattern|
    && Flatten(segments) == topic
    && forall i :: 0 <= i < |pattern| ==> Covers(pattern[i], segments[i])
  }

  /** The rule read from the left, the way a trie walk discovers it. */
  predicate Matches(pattern: Words, topic: Words)
    decreases pattern
  {
    if pattern == [] then topic == []
    else if pattern[0] == HASH then
      exists used :: 0 <= used <= |topic| && Matches(pattern[1..], topic[used..])
    else
      topic != [] && (pattern[0] == STAR || pattern[0] == topic[0]) && Matches(pattern[1..], topic[1..])
  }

  lemma {:induction false} SplitsMatch(pattern: Words, topic: Words, segments: seq<Words>)
    requires Splits(pattern, topic, segments)
    ensures Matches(pattern, topic)
    decreases pattern
  {
    if pattern != [] {
      var used := |segments[0]|;
      assert topic == segments[0] + Flatten(segments[1..]);
      assert topic[used..] == Flatten(segments[1..]);
      SplitsMatch(pattern[1..], topic[used..], segments[1..]);
    }
  }

  lemma {:induction false} MatchSplits(pattern: Words, topic: Words) returns (segments: seq<Words>)
    requires Matches(pattern, topic)
    ensures Splits(pattern, topic, segments)
    decreases pattern
  {
    if pattern == [] {
      segments := [];
    } else {
      var used := 1;
      if pattern[0] == HASH {
        used :| 0 <= used <= |topic| && Matches(pattern[1..], topic[used..]);
      }
      var rest := MatchSplits(pattern[1..], topic[used..]);
      segments := [topic[..used]] + rest;
      assert segments[1..] == rest;
      assert topic == topic[..used] + topic[used..];
    }
  }

  /** The left-to-right reading is the declarative rule, both ways. */
  lemma MatchesIsTopicMatches(pattern: Words, topic: Words)
    ensures Matches(pattern, topic) <==> TopicMatches(pattern, topic)
  {
    if Matches(pattern, topic) {
      var segments := MatchSplits(pattern, topic);
    }
    if TopicMatches(pattern, topic) {
      var segments :| Splits(pattern, topic, segments);
      SplitsMatch(pattern, topic, segments);
    }
  }
}

/** The linked trie: nodes extended in place by `AddMatch`, walked by `Match`. */
module TopicTrie {
  import opened TopicRule

  /** A registered value; equality stands for object identity. */
  type Value(==, !new)

  datatype Registration = Registration(pattern: Words, value: Value)

  class TrieNode {
    var values: seq<Value>
    var children: map<Word, TrieNode>
    var singleWildcard: TrieNode?
    var superWildcard: TrieNode?

    constructor ()
      ensures values == [] && children == map[] && singleWildcard == null && superWildcard == null
    {
      values, children := [], map[];
      singleWildcard, superWildcard := null, null;
    }

    /** The node one pattern word further on, or null. */
    function Step(word: Word): (next: TrieNode?)
      reads this
    {
      if word == STAR then singleWildcard
      else if word == HASH then superWildcard
      else if word in children then children[word] else null
    }

    /** Wildcards have their own slots and never appear among the children. */
    ghost predicate WellFormed()
      reads this
    {
      STAR !in children && HASH !in children
    }

    method Link(word: Word, next: TrieNode)
      requires WellFormed()
      modifies this`children, this`singleWildcard, this`superWildcard
      ensures WellFormed()
      ensures forall w: Word :: Step(w) == if w == word then next else old(Step(w))
    {
      if word == STAR {
        singleWildcard := next;
      } else if word == HASH {
        superWildcard := next;
      } else {
        children := children[word := next];
      }
    }
  }

  /** The values not there yet are appended, in their order. */
  function FirstTimes(before: seq<Value>, values: seq<Value>): seq<Value>
    decreases values
  {
    if values == [] then before
    else FirstTimes(if values[0] in before then before else before + [values[0]], values[1..])
  }

  lemma {:induction false} FirstTimesAdds(before: seq<Value>, values: seq<Value>)
    ensures before <= FirstTimes(before, values)
    ensures forall v :: v in FirstTimes(before, values) <==> v in before || v in values
    decreases values
  {
    if values != [] {
      assert values == [values[0]] + values[1..];
      FirstTimesAdds(if values[0] in before then before else before + [values[0]], values[1..]);
    }
  }

  /** Every value that stands before `v` in the list is there. */
  ghost predicate Preceded(values: seq<Value>, v: Value, there: seq<Value>) {
    forall k :: 0 <= k < |values| ==> v in values[..k + 1] || values[k] in there
  }

  lemma PrecededCons(first: Value, rest: seq<Value>, v: Value, there: seq<Value>)
    requires first in there && v in rest && Preceded(rest, v, there)
    ensures Preceded([first] + rest, v, there)
  {
    var values := [first] + rest;
    forall k | 0 <= k < |values|
      ensures v in values[..k + 1] || values[k] in there
    {
      if k > 0 { assert values[..k + 1] == [first] + rest[..k]; }
    }
  }

  lemma PrecededFirst(first: Value, rest: seq<Value>, there: seq<Value>)
    ensures Preceded([first] + rest, first, there)
  {
    var values := [first] + rest;
    forall k | 0 <= k < |values|
      ensures first in values[..k + 1] || values[k] in there
    {
      assert values[..k + 1][0] == first;
    }
  }

  lemma StaysBefore(before: seq<Value>, all: seq<Value>, j: nat, v: Value)
    requires before <= all && |before| <= j <= |all| && v in before
    ensures v in all[..j]
  {
    var h :| 0 <= h < |before| && before[h] == v;
    assert all[..j][h] == v;
  }

  /** A new value is appended after all that stand before it in the list. */
  lemma {:induction false} FirstTimesInOrder(before: seq<Value>, values: seq<Value>, j: nat)
    requires |before| <= j < |FirstTimes(before, values)|
    ensures var all := FirstTimes(before, values);
      all[j] in values && Preceded(values, all[j], all[..j])
    decreases values
  {
    var all := FirstTimes(before, values);
    if values != [] {
      var first, rest := values[0], values[1..];
      var next := if first in before then before else before + [first];
      assert values == [first] + rest;
      FirstTimesAdds(next, rest);
      if j < |next| {
        assert all[j] == next[j] == first;
        PrecededFirst(first, rest, all[..j]);
      } else {
        FirstTimesInOrder(next, rest, j);
        StaysBefore(next, all, j, first);
        PrecededCons(first, rest, all[j], all[..j]);
      }
    }
  }

  /** The list of results and the identities already in it, shared by one walk. */
  class Collector {
    var results: seq<Value>
    var seen: set<Value>

    constructor ()
      ensures results == [] && seen == {}
    {
      results, seen := [], {};
    }

    ghost predicate Valid()
      reads this
    {
      && (forall v :: v in seen <==> v in results)
      && (forall i, j :: 0 <= i < j < |results| ==> results[i] != results[j])
    }

    method Collect(node: TrieNode)
      requires Valid()
      modifies this
      ensures Valid()
      ensures old(results) <= results
      ensures forall v :: v in results <==> v in old(results) || v in node.values
      ensures results == FirstTimes(old(results), node.values)
    {
      for i := 0 to |node.values|
        invariant Valid()
        invariant FirstTimes(results, node.values[i..]) == FirstTimes(old(results), node.values)
      {
        var value := node.values[i];
        assert node.values[i..][0] == value && node.values[i..][1..] == node.values[i + 1..];
        if value !in seen {
          seen := seen + {value};
          results := results + [value];
        }
      }
      FirstTimesAdds(old(results), node.values);
    }
  }

  class Trie {
    const root: TrieNode
    /** Every registration, oldest first. */
    ghost var registered: seq<Registration>
    /** The node each walkable prefix of a registered pattern leads to. */
    ghost var at: map<Words, TrieNode>
    /** The nodes this trie owns. */
    ghost var nodes: set<TrieNode>

    ghost predicate Valid()
      reads this, nodes
    {
      && Shape(at)
      && (forall p :: p in at ==> NodeOk(p))
    }

    /** One node per walkable prefix, and a node for every registered pattern. */
    ghost predicate Shape(m: map<Words, TrieNode>)
      reads this`registered, this`nodes
    {
      && [] in m && m[[]] == root
      && (forall p :: p in m ==> m[p] in nodes)
      && (forall p, q :: p in m && q in m && m[p] == m[q] ==> p == q)
      && (forall p: Words, w: Word {:trigger p + [w]} :: p + [w] in m ==> p in m)
      && (forall r :: r in registered ==> r.pattern in m)
    }

    /** The node at `p` links to exactly the nodes one word further on, keeps
        wildcards out of its children and holds the values registered under `p`. */
    ghost predicate NodeOk(p: Words)
      requires p in at && at[p] in nodes
      reads this, nodes
    {
      && (forall w: Word {:trigger at[p].Step(w)} :: at[p].Step(w) == if p + [w] in at then at[p + [w]] else null)
      && at[p].WellFormed()
      && at[p].values == ValuesFor(p, registered)
    }

    constructor ()
      ensures Valid() && registered == []
      ensures fresh(nodes)
    {
      root := new TrieNode();
      registered := [];
      new;
      at, nodes := map[[] := root], {root};
    }

    /** Creates the node for a word the node at `path` does not lead to yet. */
    method Attach(ghost path: Words, node: TrieNode, part: Word) returns (created: TrieNode)
      requires Valid() && path in at && at[path] == node && path + [part] !in at
      modifies this`at, this`nodes, node
      ensures Valid() && fresh(created) && nodes == old(nodes) + {created}
      ensures at == old(at)[path + [part] := created]
    {
      ghost var before := at;
      assert forall p :: p in before ==> NodeOk(p);
      created := new TrieNode();
      node.Link(part, created);
      at, nodes := at[path + [part] := created], nodes + {created};
      assert forall p :: p in before ==> LinkedIn(before, p, path, part, created);
      Relinked(before, path, part, created);
    }

    /** The links and values at `p` are those of the trie `m`, except that
        `part` leads from `path` to `created`. */
    ghost predicate LinkedIn(m: map<Words, TrieNode>, p: Words, path: Words, part: Word, created: TrieNode)
      requires p in m && m[p] in nodes
      reads this, nodes
    {
      && (forall w: Word {:trigger m[p].Step(w)} :: m[p].Step(w) ==
            if p == path && w == part then created else if p + [w] in m then m[p + [w]] else null)
      && m[p].WellFormed()
      && m[p].values == ValuesFor(p, registered)
    }

    /** Adding one fresh node where the links say it is keeps every node correct. */
    lemma Relinked(before: map<Words, TrieNode>, path: Words, part: Word, created: TrieNode)
      requires path in before && path + [part] !in before
      requires at == before[path + [part] := created]
      requires Shape(before) && created in nodes && forall p :: p in before ==> before[p] != created
      requires forall p :: p in before ==> LinkedIn(before, p, path, part, created)
      requires created.WellFormed() && created.values == [] && forall w: Word :: created.Step(w) == null
      ensures Valid()
    {
      AppendInjective(path, part);
      forall p | p in at
        ensures NodeOk(p)
      {
        if p == path + [part] {
          forall w: Word
            ensures p + [w] !in at
          {
          }
          NoValues(p, registered);
        } else {
          assert LinkedIn(before, p, path, part, created);
        }
      }
    }

    /** Walks the pattern from the root, creating what is missing, and hangs the
        value on the last node. */
    method AddMatch(pattern: Words, value: Value)
      requires Valid()
      modifies this, nodes
      ensures Valid()
      ensures registered == old(registered) + [Registration(pattern, value)]
      ensures fresh(nodes - old(nodes))
    {
      var node := root;
      for i := 0 to |pattern|
        invariant Valid() && registered == old(registered)
        invariant fresh(nodes - old(nodes))
        invariant pattern[..i] in at && at[pattern[..i]] == node
      {
        var part := pattern[i];
        ghost var path := pattern[..i];
        assert pattern[..i + 1] == path + [part];
        assert NodeOk(path);
        var next := node.Step(part);
        if next == null {
          next := Attach(path, node, part);
        }
        node := next;
      }
      assert pattern[..|pattern|] == pattern;
      Hang(pattern, node, value);
    }

    /** Appends the value to the node its pattern leads to. */
    method Hang(ghost pattern: Words, node: TrieNode, value: Value)
      requires Valid() && pattern in at && at[pattern] == node
      modifies this`registered, node`values
      ensures Valid()
      ensures registered == old(registered) + [Registration(pattern, value)]
    {
      node.values := node.values + [value];
      registered := registered + [Registration(pattern, value)];
      assert registered[..|registered| - 1] == old(registered);
      forall p | p in at
        ensures NodeOk(p)
      {
        assert old(NodeOk(p));
        assert forall w: Word :: at[p].Step(w) == old(at[p].Step(w));
      }
    }

    /** Some registration at or below `path` carries `value` and matches the
        topic from there on. */
    ghost predicate Found(path: Words, topic: Words, value: Value)
      reads this`registered
    {
      exists r :: Hit(r, path, topic, value)
    }

    ghost predicate Hit(r: Registration, path: Words, topic: Words, value: Value)
      reads this`registered
    {
      && r in registered && r.value == value
      && path <= r.pattern && Matches(r.pattern[|path|..], topic)
    }

    /** Whatever matches the words still to come matches the whole topic behind `path`. */
    ghost predicate Accounts(path: Words, parts: Words, index: nat)
      requires index <= |parts|
    {
      forall q :: Matches(q, parts[index..]) ==> Matches(path + q, parts)
    }

    lemma Further(path: Words, word: Word, parts: Words, index: nat, next: nat)
      requires index <= next <= |parts| && Accounts(path, parts, index)
      requires word == HASH || (next == index + 1 && (word == STAR || word == parts[index]))
      ensures Accounts(path + [word], parts, next)
    {
      forall q | Matches(q, parts[next..])
        ensures Matches(path + [word] + q, parts)
      {
        var longer := [word] + q;
        assert longer[0] == word && longer[1..] == q;
        assert parts[index..][next - index..] == parts[next..];
        assert Matches(longer, parts[index..]);
        assert path + [word] + q == path + longer;
      }
    }

    ghost predicate AccountsAnywhere(path: Words, parts: Words, index: nat)
      requires index <= |parts|
    {
      forall k :: index <= k <= |parts| ==> Accounts(path, parts, k)
    }

    lemma FurtherAnywhere(path: Words, parts: Words, index: nat)
      requires index <= |parts| && Accounts(path, parts, index)
      ensures AccountsAnywhere(path + [HASH], parts, index)
    {
      forall k | index <= k <= |parts|
        ensures Accounts(path + [HASH], parts, k)
      {
        Further(path, HASH, parts, index, k);
      }
    }

    /** The value has its turn: some pattern that matches was given it, and all that
        this pattern was given before come earlier. */
    ghost predicate Due(pattern: Words, topic: Words, v: Value, earlier: seq<Value>)
      reads this`registered
    {
      && Matches(pattern, topic)
      && v in ValuesFor(pattern, registered)
      && Preceded(ValuesFor(pattern, registered), v, earlier)
    }

    ghost predicate InTurn(topic: Words, results: seq<Value>)
      reads this`registered
    {
      forall j :: 0 <= j < |results| ==> DueToSome(topic, results[j], results[..j])
    }

    ghost predicate DueToSome(topic: Words, v: Value, earlier: seq<Value>)
      reads this`registered
    {
      exists p :: Due(p, topic, v, earlier)
    }

    lemma CollectedInTurn(path: Words, topic: Words, before: seq<Value>, after: seq<Value>)
      requires Valid() && path in at && Accounts(path, topic, |topic|)
      requires InTurn(topic, before) && after == FirstTimes(before, at[path].values)
      ensures InTurn(topic, after)
    {
      assert NodeOk(path);
      assert topic[|topic|..] == [] && path + [] == path && Matches([], topic[|topic|..]);
      AppendedInTurn(path, topic, before, at[path].values);
    }

    lemma AppendedInTurn(pattern: Words, topic: Words, before: seq<Value>, values: seq<Value>)
      requires Matches(pattern, topic) && values == ValuesFor(pattern, registered) && InTurn(topic, before)
      ensures InTurn(topic, FirstTimes(before, values))
    {
      var after := FirstTimes(before, values);
      FirstTimesAdds(before, values);
      forall j | 0 <= j < |after|
        ensures DueToSome(topic, after[j], after[..j])
      {
        if j < |before| {
          assert after[..j] == before[..j] && after[j] == before[j];
          assert DueToSome(topic, before[j], before[..j]);
        } else {
          FirstTimesInOrder(before, values, j);
          assert Due(pattern, topic, after[j], after[..j]);
        }
      }
    }

    /** Every value whose pattern matches, each once; the walk stops because each
        call goes one node deeper. */
    method Match(node: TrieNode, ghost path: Words, parts: Words, index: nat, out: Collector)
      requires Valid() && path in at && at[path] == node
      requires index <= |parts| && out.Valid() && InTurn(parts, out.results) && Accounts(path, parts, index)
      modifies out
      ensures out.Valid() && old(out.results) <= out.results && InTurn(parts, out.results)
      ensures forall v :: v in out.results <==> v in old(out.results) || Found(path, parts[index..], v)
      decreases Below(path), 1
    {
      if index == |parts| {
        MatchEnd(node, path, parts, index, out);
        return;
      }
      Unfold(path, parts[index..]);
      assert NodeOk(path);
      assert node.Step(STAR) == node.singleWildcard && node.Step(HASH) == node.superWildcard;
      var part := parts[index];
      assert parts[index..][1..] == parts[index + 1..];
      if part in node.children {
        assert node.Step(part) == node.children[part];
        Deeper(path, part);
        Further(path, part, parts, index, index + 1);
        Match(node.children[part], path + [part], parts, index + 1, out);
      }
      if node.singleWildcard != null {
        Deeper(path, STAR);
        Further(path, STAR, parts, index, index + 1);
        Match(node.singleWildcard, path + [STAR], parts, index + 1, out);
      }
      if node.superWildcard != null {
        Deeper(path, HASH);
        FurtherAnywhere(path, parts, index);
        MatchAnywhere(node.superWildcard, path + [HASH], parts, index, out);
      }
    }

    /** All words are used up: the node's own values, and those behind a `#` that
        stands for nothing. */
    method MatchEnd(node: TrieNode, ghost path: Words, parts: Words, index: nat, out: Collector)
      requires Valid() && path in at && at[path] == node
      requires index == |parts| && out.Valid() && InTurn(parts, out.results) && Accounts(path, parts, index)
      modifies out
      ensures out.Valid() && old(out.results) <= out.results && InTurn(parts, out.results)
      ensures forall v :: v in out.results <==> v in old(out.results) || Found(path, parts[index..], v)
      decreases Below(path), 0
    {
      Unfold(path, parts[index..]);
      assert NodeOk(path);
      assert node.Step(HASH) == node.superWildcard;
      out.Collect(node);
      CollectedInTurn(path, parts, old(out.results), out.results);
      assert parts[index..] == [];
      forall v
        ensures FoundAnywhere(path + [HASH], [], v) <==> Found(path + [HASH], [], v)
      {
        assert parts[index..][0..] == [];
      }
      if node.superWildcard != null {
        Deeper(path, HASH);
        Further(path, HASH, parts, index, index);
        Match(node.superWildcard, path + [HASH], parts, index, out);
      }
    }

    /** Continues from a `#` node having consumed none, one, ... all of the
        remaining words. */
    method MatchAnywhere(node: TrieNode, ghost path: Words, parts: Words, index: nat, out: Collector)
      requires Valid() && path in at && at[path] == node
      requires index <= |parts| && out.Valid() && InTurn(parts, out.results)
      requires AccountsAnywhere(path, parts, index)
      modifies out
      ensures out.Valid() && old(out.results) <= out.results && InTurn(parts, out.results)
      ensures forall v :: v in out.results <==> v in old(out.results) || FoundAnywhere(path, parts[index..], v)
      decreases Below(path), 2
    {
      for consumed := index to |parts| + 1
        invariant out.Valid() && old(out.results) <= out.results && InTurn(parts, out.results)
        invariant forall v :: v in out.results <==>
          v in old(out.results) || exists k :: index <= k < consumed && Found(path, parts[k..], v)
      {
        Match(node, path, parts, consumed, out);
      }
      forall v
        ensures (exists k :: index <= k < |parts| + 1 && Found(path, parts[k..], v)) <==>
              FoundAnywhere(path, parts[index..], v)
      {
        if k :| index <= k < |parts| + 1 && Found(path, parts[k..], v) {
          assert parts[index..][k - index..] == parts[k..];
        }
        if FoundAnywhere(path, parts[index..], v) {
          var used :| 0 <= used <= |parts| - index && Found(path, parts[index..][used..], v);
          assert parts[index..][used..] == parts[index + used..];
        }
      }
    }

    ghost predicate FoundAnywhere(path: Words, topic: Words, value: Value)
      reads this`registered
    {
      exists used :: 0 <= used <= |topic| && Found(path, topic[used..], value)
    }

    /** The walkable prefixes longer than `path`: what bounds the walk. */
    ghost function Below(path: Words): set<Words>
      reads this
    {
      set p | p in at && |path| < |p|
    }

    lemma Deeper(path: Words, word: Word)
      requires path + [word] in at
      ensures Below(path + [word]) < Below(path)
    {
      assert path + [word] in Below(path) && path + [word] !in Below(path + [word]);
      forall p | p in Below(path + [word])
        ensures p in Below(path)
      {
        assert |path| < |path + [word]| < |p|;
      }
    }

    /** What a node contributes, in terms of the nodes one word further on. */
    lemma Unfold(path: Words, topic: Words)
      requires Valid() && path in at
      ensures forall v :: Found(path, topic, v) <==> Contributes(path, topic, v)
    {
      forall v
        ensures Found(path, topic, v) <==> Contributes(path, topic, v)
      {
        if Found(path, topic, v) {
          var r :| Hit(r, path, topic, v);
          HitContributes(r, path, topic, v);
        }
        if Contributes(path, topic, v) { ContributesFound(path, topic, v); }
      }
    }

    ghost predicate Contributes(path: Words, topic: Words, v: Value)
      requires path in at
      reads this, at[path]
    {
      || (topic == [] && v in at[path].values)
      || (path + [HASH] in at && FoundAnywhere(path + [HASH], topic, v))
      || (topic != [] && topic[0] in at[path].children && Found(path + [topic[0]], topic[1..], v))
      || (topic != [] && path + [STAR] in at && Found(path + [STAR], topic[1..], v))
    }

    lemma HitContributes(r: Registration, path: Words, topic: Words, v: Value)
      requires Valid() && path in at && Hit(r, path, topic, v)
      ensures Contributes(path, topic, v)
    {
      assert NodeOk(path);
      var rest := r.pattern[|path|..];
      if rest == [] {
        assert r.pattern == path;
        ValuesForHolds(path, registered, v);
      } else {
        var word := rest[0];
        PrefixIn(r.pattern, |path| + 1);
        assert r.pattern[..|path| + 1] == path + [word];
        assert r.pattern[|path| + 1..] == rest[1..];
        assert at[path].Step(word) != null;
        if word == HASH {
          var used :| 0 <= used <= |topic| && Matches(rest[1..], topic[used..]);
          assert Hit(r, path + [word], topic[used..], v);
        } else {
          assert Hit(r, path + [word], topic[1..], v);
        }
      }
    }

    lemma ContributesFound(path: Words, topic: Words, v: Value)
      requires Valid() && path in at && Contributes(path, topic, v)
      ensures Found(path, topic, v)
    {
      assert NodeOk(path);
      if topic == [] && v in at[path].values {
        ValuesForHolds(path, registered, v);
        assert Hit(Registration(path, v), path, topic, v);
      } else if path + [HASH] in at && FoundAnywhere(path + [HASH], topic, v) {
        var used :| 0 <= used <= |topic| && Found(path + [HASH], topic[used..], v);
        Upward(path, HASH, topic, used, v);
      } else if topic[0] in at[path].children && Found(path + [topic[0]], topic[1..], v) {
        Upward(path, topic[0], topic, 1, v);
      } else {
        Upward(path, STAR, topic, 1, v);
      }
    }

    /** A hit one word further on is a hit here, when the word covers what was
        consumed in between. */
    lemma Upward(path: Words, word: Word, topic: Words, used: nat, v: Value)
      requires used <= |topic| && Found(path + [word], topic[used..], v)
      requires word == HASH || (used == 1 && (word == STAR || word == topic[0]))
      ensures Found(path, topic, v)
    {
      var r :| Hit(r, path + [word], topic[used..], v);
      var rest := r.pattern[|path|..];
      assert (path + [word])[|path|] == r.pattern[|path|] && path == (path + [word])[..|path|] == r.pattern[..|path|];
      assert rest[0] == word && rest[1..] == r.pattern[|path| + 1..];
      assert Hit(r, path, topic, v);
    }

    lemma {:induction false} PrefixIn(p: Words, n: nat)
      requires Valid() && p in at && n <= |p|
      ensures p[..n] in at
      decreases |p| - n
    {
      if n == |p| {
        assert p[..n] == p;
      } else {
        PrefixIn(p, n + 1);
        assert p[..n + 1] == p[..n] + [p[n]];
      }
    }

    /** After any registrations: exactly the values of the matching patterns, each
        once, and those of one pattern in the order they were registered. */
    method MatchTopic(topic: Words) returns (results: seq<Value>)
      requires Valid()
      ensures forall v :: v in results <==>
        exists r :: r in registered && r.value == v && TopicMatches(r.pattern, topic)
      ensures forall i, j :: 0 <= i < j < |results| ==> results[i] != results[j]
      ensures InTurn(topic, results)
    {
      var out := new Collector();
      assert topic[0..] == topic && forall q: Words :: [] + q == q;
      Match(root, [], topic, 0, out);
      results := out.results;
      assert topic[0..] == topic;
      forall v
        ensures Found([], topic, v) <==> exists r :: r in registered && r.value == v && TopicMatches(r.pattern, topic)
      {
        if r :| Hit(r, [], topic, v) {
          assert r.pattern[0..] == r.pattern;
          MatchesIsTopicMatches(r.pattern, topic);
        }
        if r :| r in registered && r.value == v && TopicMatches(r.pattern, topic) {
          MatchesIsTopicMatches(r.pattern, topic);
          assert r.pattern[0..] == r.pattern;
          assert Hit(r, [], topic, v);
        }
      }
    }
  }

  lemma {:induction false} ValuesForHolds(p: Words, registrations: seq<Registration>, v: Value)
    ensures v in ValuesFor(p, registrations) <==> Registration(p, v) in registrations
  {
    if registrations != [] {
      var n := |registrations| - 1;
      assert registrations == registrations[..n] + [registrations[n]];
      ValuesForHolds(p, registrations[..n], v);
    }
  }

  lemma AppendInjective(path: Words, part: Word)
    ensures forall p: Words, w: Word {:trigger p + [w]} :: p + [w] == path + [part] ==> p == path && w == part
  {
    forall p: Words, w: Word | p + [w] == path + [part]
      ensures p == path && w == part
    {
      assert p == (p + [w])[..|p|] && path == (path + [part])[..|path|];
      assert w == (p + [w])[|p|] && part == (path + [part])[|path|];
    }
  }

  lemma {:induction false} NoValues(p: Words, registrations: seq<Registration>)
    requires forall r :: r in registrations ==> r.pattern != p
    ensures ValuesFor(p, registrations) == []
  {
    if registrations != [] { NoValues(p, registrations[..|registrations| - 1]); }
  }

  /** The values registered under exactly this pattern, oldest first. */
  function ValuesFor(pattern: Words, registrations: seq<Registration>): seq<Value> {
    if registrations == [] then []
    else
      var last := registrations[|registrations| - 1];
      ValuesFor(pattern, registrations[..|registrations| - 1])
      + if last.pattern == pattern then [last.value] else []
  }
}
