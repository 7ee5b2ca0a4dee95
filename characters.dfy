/** The character list: first-run seeding, adding one character and batch deletion by id. */
module Characters {
  import opened Wrappers

  /** One chat turn; the list handlers only ever create empty histories, so its fields are not modelled. */
  type ChatTurn = string

  /** A chat character; `id` is the millisecond timestamp of its creation. */
  datatype Character = Character(
    id: int,
    name: string,
    subtitle: string,
    setting: string,
    avatar: string,
    history: seq<ChatTurn>)

  /** The character seeded on first run. */
  function DefaultCharacter(now: int): (c: Character)
    ensures c.id == now && c.name == "Helpful Assistant" && c.avatar == "" && c.history == []
  {
    Character(now, "Helpful Assistant", "Your default AI companion.", "You are a helpful assistant.", "", [])
  }

  /** The placeholder the add button creates. */
  function NewCharacter(id: int): (c: Character)
    ensures c.id == id && c.name == "New Character" && c.subtitle == c.setting == c.avatar == "" && c.history == []
  {
    Character(id, "New Character", "", "", "", [])
  }

  /** The list loadCharacters starts from: the stored one, or else a single seeded character. */
  function LoadedCharacters(saved: Option<seq<Character>>, now: int): (r: seq<Character>)
    ensures saved.Some? ==> r == saved.value
    ensures saved.None? ==> |r| == 1 && r[0].id == now && r[0].name == "Helpful Assistant" && r[0].history == []
  {
    match saved
    case Some(list) => list
    case None => [DefaultCharacter(now)]
  }

  /** `a` is `b` with some elements left out, the rest in their original order. */
  ghost predicate IsSubsequence<T>(a: seq<T>, b: seq<T>)
    decreases |b|
  {
    if a == [] then true
    else if b == [] then false
    else (a[0] == b[0] && IsSubsequence(a[1..], b[1..])) || IsSubsequence(a, b[1..])
  }

  /**
   * The characters whose id is not among the selected ids, in their original
   * order: what batch deletion keeps.
   */
  function WithoutIds(cs: seq<Character>, ids: seq<int>): (r: seq<Character>)
    ensures |r| <= |cs|
  {
    if cs == [] then []
    else if cs[0].id in ids then WithoutIds(cs[1..], ids)
    else [cs[0]] + WithoutIds(cs[1..], ids)
  }

  /**
   * Batch deletion drops every character whose id is selected and keeps
   * every other one as many times as it occurred.
   */
  lemma {:induction false} WithoutIdsCounts(cs: seq<Character>, ids: seq<int>)
    ensures forall c :: multiset(WithoutIds(cs, ids))[c] == if c.id in ids then 0 else multiset(cs)[c]
  {
    if cs != [] {
      WithoutIdsCounts(cs[1..], ids);
      assert cs == [cs[0]] + cs[1..];
    }
  }

  /** Batch deletion keeps the remaining characters in their original order. */
  lemma {:induction false} WithoutIdsSubsequence(cs: seq<Character>, ids: seq<int>)
    ensures IsSubsequence(WithoutIds(cs, ids), cs)
  {
    if cs != [] {
      WithoutIdsSubsequence(cs[1..], ids);
    }
  }

  /** Filtering a concatenation filters each part. */
  lemma {:induction false} WithoutIdsAppend(a: seq<Character>, b: seq<Character>, ids: seq<int>)
    ensures WithoutIds(a + b, ids) == WithoutIds(a, ids) + WithoutIds(b, ids)
  {
    if a == [] {
      assert a + b == b;
    } else {
      var ab := a + b;
      assert ab != [] && ab[0] == a[0] && ab[1..] == a[1..] + b;
      WithoutIdsAppend(a[1..], b, ids);
      var rest, tail := WithoutIds(a[1..], ids), WithoutIds(b, ids);
      assert WithoutIds(ab[1..], ids) == rest + tail;
      if a[0].id in ids {
        assert WithoutIds(ab, ids) == WithoutIds(ab[1..], ids);
        assert WithoutIds(a, ids) == rest;
      } else {
        assert WithoutIds(ab, ids) == [a[0]] + WithoutIds(ab[1..], ids);
        assert WithoutIds(a, ids) == [a[0]] + rest;
        assert [a[0]] + (rest + tail) == ([a[0]] + rest) + tail;
      }
    }
  }

  /** A filter that matches no character returns the list unchanged. */
  lemma {:induction false} WithoutIdsNoMatch(cs: seq<Character>, ids: seq<int>)
    requires forall k :: 0 <= k < |cs| ==> cs[k].id !in ids
    ensures WithoutIds(cs, ids) == cs
  {
    if cs != [] {
      WithoutIdsNoMatch(cs[1..], ids);
    }
  }

  /** Deleting a second time with the same selection removes nothing more. */
  lemma {:induction false} WithoutIdsIdempotent(cs: seq<Character>, ids: seq<int>)
    ensures WithoutIds(WithoutIds(cs, ids), ids) == WithoutIds(cs, ids)
  {
    if cs != [] {
      WithoutIdsIdempotent(cs[1..], ids);
    }
  }

  /** Adding a character with a fresh id and then batch-deleting that id restores the list. */
  lemma AddThenDeleteRestores(cs: seq<Character>, id: int)
    requires forall k :: 0 <= k < |cs| ==> cs[k].id != id
    ensures WithoutIds(cs + [NewCharacter(id)], [id]) == cs
  {
    WithoutIdsAppend(cs, [NewCharacter(id)], [id]);
    WithoutIdsNoMatch(cs, [id]);
  }
}
