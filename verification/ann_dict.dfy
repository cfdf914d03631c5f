/**
 * The parser's result dictionary: a Python `dict` from image name to a list
 * of boxes. Python dicts remember insertion order, and the assembler walks
 * `keys()` in that order, so the model keeps the key order next to the map.
 */
module AnnDicts {
  import opened Wrappers

  /** One retained box: the leading numbers of a box line (at most four). */
  type Box = seq<real>

  /** `order` lists the keys in iteration order; `entries` holds the lists. */
  datatype AnnDict = AnnDict(order: seq<string>, entries: map<string, seq<Box>>)

  const Empty: AnnDict := AnnDict([], map[])

  predicate Distinct(s: seq<string>)
  {
    forall i, j :: 0 <= i < j < |s| ==> s[i] != s[j]
  }

  /** The keys listed in `order` are exactly the keys of `entries`, once each. */
  ghost predicate Valid(d: AnnDict)
  {
    Distinct(d.order) && forall k :: k in d.entries <==> k in d.order
  }

  /** `d[k] = v`: a new key goes last, an existing key keeps its place and
      only its list is replaced. */
  function Assign(d: AnnDict, k: string, v: seq<Box>): (r: AnnDict)
    ensures Valid(d) ==> Valid(r)
    ensures r.entries == d.entries[k := v]
    ensures Valid(d) && k in d.entries ==> r.order == d.order
    ensures k !in d.entries ==> r.order == d.order + [k]
  {
    AnnDict(if k in d.entries then d.order else d.order + [k], d.entries[k := v])
  }

  /** `s` with every occurrence of `k` taken out, the rest in order. */
  function Remove(s: seq<string>, k: string): (r: seq<string>)
    ensures forall x :: x in r <==> x in s && x != k
    ensures Distinct(s) ==> Distinct(r)
    ensures k !in s ==> r == s
  {
    if s == [] then []
    else
      var tail := Remove(s[1..], k);
      if s[0] == k then tail
      else
        assert Distinct(s) ==> s[0] !in s[1..];
        [s[0]] + tail
  }

  /** In a list without repeats, removing the key at position `i` is cutting
      out that one position: the other keys keep their relative order. */
  lemma {:induction false} RemoveAt(s: seq<string>, i: nat)
    requires Distinct(s) && i < |s|
    ensures Remove(s, s[i]) == s[..i] + s[i + 1..]
  {
    var t := s[1..];
    if i == 0 {
      assert s[0] !in t;
      assert Remove(s, s[0]) == Remove(t, s[0]);
      assert s[..0] + s[1..] == t;
    } else {
      assert Distinct(t);
      assert t[i - 1] == s[i];
      RemoveAt(t, i - 1);
      assert s[0] != s[i];
      assert Remove(s, s[i]) == [s[0]] + Remove(t, s[i]);
      ConsSlices(s, i);
    }
  }

  /** Removing a key that was appended last gives back the list before it. */
  lemma {:induction false} RemoveLast(s: seq<string>, k: string)
    requires k !in s
    ensures Remove(s + [k], k) == s
  {
    if s == [] {
      assert [k][1..] == [];
    } else {
      assert (s + [k])[0] == s[0] && (s + [k])[1..] == s[1..] + [k];
      RemoveLast(s[1..], k);
    }
  }

  /** Popping a key that the assignment just added gives back the dict as it
      was before the assignment, key order included. */
  lemma {:induction false} PopUndoesNewKey(d: AnnDict, k: string, v: seq<Box>)
    requires Valid(d) && k !in d.entries
    ensures Pop(Assign(d, k, v), k) == Some(d)
  {
    RemoveLast(d.order, k);
    assert d.entries[k := v] - {k} == d.entries;
  }

  lemma {:induction false} ConsSlices(s: seq<string>, i: nat)
    requires 0 < i < |s|
    ensures [s[0]] + (s[1..][..i - 1] + s[1..][i..]) == s[..i] + s[i + 1..]
  {
    assert s[..i] == [s[0]] + s[1..][..i - 1];
    assert s[i + 1..] == s[1..][i..];
  }

  /** `d.pop(k)`; `None` is the `KeyError` raised when `k` is missing. */
  function Pop(d: AnnDict, k: string): (r: Option<AnnDict>)
    ensures r.Some? <==> k in d.entries
    ensures r.Some? ==> r.value.entries == d.entries - {k} && k !in r.value.order
    ensures r.Some? && Valid(d) ==> Valid(r.value)
  {
    if k in d.entries then Some(AnnDict(Remove(d.order, k), d.entries - {k})) else None
  }

  /** `d[k].append(b)`; `None` is the `KeyError` raised by the lookup. The
      key order is untouched and only the list of `k` grows, by `b` at its end. */
  function AppendBox(d: AnnDict, k: string, b: Box): (r: Option<AnnDict>)
    ensures r.Some? <==> k in d.entries
    ensures r.Some? ==> r.value.order == d.order && r.value.entries.Keys == d.entries.Keys
    ensures r.Some? ==> r.value.entries[k] == d.entries[k] + [b]
    ensures r.Some? ==> forall x :: x in d.entries && x != k ==> r.value.entries[x] == d.entries[x]
    ensures r.Some? && Valid(d) ==> Valid(r.value)
  {
    if k in d.entries then Some(AnnDict(d.order, d.entries[k := d.entries[k] + [b]])) else None
  }
}
