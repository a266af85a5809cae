/**
 * The bot's in-memory points table: a dict from animation to a dict from
 * player to points, read and written through the `Storage` class.
 */
module Storage {
  import opened Wrappers
  import Dicts
  import Ints

  /** player -> points, for one animation. */
  type Row = Dicts.Dict<int>

  /** animation -> (player -> points). */
  type Table = Dicts.Dict<Row>

  predicate WellFormed(t: Table) {
    Dicts.Valid(t) && forall a :: a in t.entries ==> Dicts.Valid(t.entries[a])
  }

  /** The points of one cell, if the animation and the player are both there. */
  function Cell(t: Table, anim: string, player: string): Option<int> {
    if anim in t.entries && player in t.entries[anim].entries
    then Some(t.entries[anim].entries[player]) else None
  }

  /**
   * The table after `write(anim, player, points)`: an unknown animation makes
   * the item assignment raise `KeyError`, which `write` catches, so nothing
   * changes; otherwise the one cell takes the new value, whether or not the
   * player was there before.
   */
  function Written(t: Table, anim: string, player: string, points: int): (t': Table)
    ensures WellFormed(t) ==> WellFormed(t')
    ensures anim !in t.entries ==> t' == t
    ensures anim in t.entries ==> Cell(t', anim, player) == Some(points)
    ensures forall a, p :: a != anim || p != player ==> Cell(t', a, p) == Cell(t, a, p)
    ensures t'.keys == t.keys && t'.entries.Keys == t.entries.Keys
    ensures forall a :: a in t.entries && a != anim ==> t'.entries[a] == t.entries[a]
    ensures WellFormed(t) && anim in t.entries ==>
      t'.entries[anim].keys == t.entries[anim].keys + (if player in t.entries[anim].entries then [] else [player])
  {
    if anim in t.entries then Dicts.Put(t, anim, Dicts.Put(t.entries[anim], player, points)) else t
  }

  /** What `read` returns, or the `KeyError` it raises. */
  datatype Answer =
    | Anims(names: seq<string>)
    | Points(points: seq<int>)
    | Point(point: int)
    | KeyError(key: string)

  /** `xs` lists some of the elements of `ys`, in the order they have there. */
  predicate Subsequence(xs: seq<string>, ys: seq<string>)
    decreases |ys|
  {
    if xs == [] then true
    else if ys == [] then false
    else if xs[0] == ys[0] then Subsequence(xs[1..], ys[1..])
    else Subsequence(xs, ys[1..])
  }

  lemma {:induction false} SubsequenceRefl(s: seq<string>)
    ensures Subsequence(s, s)
    decreases |s|
  {
    if s != [] {
      SubsequenceRefl(s[1..]);
    }
  }

  /** `[anim for anim in keys if player in table[anim]]`. */
  function AnimsWith(t: Table, keys: seq<string>, player: string): (names: seq<string>)
    requires forall i :: 0 <= i < |keys| ==> keys[i] in t.entries
    ensures forall a :: a in names <==> a in keys && player in t.entries[a].entries
    ensures Subsequence(names, keys)
    ensures Dicts.Distinct(keys) ==> Dicts.Distinct(names)
  {
    if keys == [] then []
    else
      var rest := AnimsWith(t, keys[1..], player);
      if player in t.entries[keys[0]].entries then [keys[0]] + rest else rest
  }

  /**
   * `read(anim, player)`; `None` stands for an argument left at its default.
   * With neither: every animation. With only a player: the animations that
   * player has points in. With only an animation: its points, one per player.
   * With both: the one cell. A missing key raises `KeyError`.
   */
  function Read(t: Table, anim: Option<string>, player: Option<string>): (r: Answer)
    requires WellFormed(t)
    ensures anim.None? && player.None? ==>
      r.Anims? && Dicts.Distinct(r.names) && Subsequence(r.names, t.keys) &&
      forall a :: a in r.names <==> a in t.entries
    ensures anim.None? && player.Some? ==>
      r.Anims? && Dicts.Distinct(r.names) && Subsequence(r.names, t.keys) &&
      forall a :: a in r.names <==> a in t.entries && player.value in t.entries[a].entries
    ensures anim.Some? && player.None? ==>
      if anim.value in t.entries then
        var row := t.entries[anim.value];
        r.Points? && |r.points| == |row.keys| &&
        forall i :: 0 <= i < |row.keys| ==> r.points[i] == row.entries[row.keys[i]]
      else r == KeyError(anim.value)
    ensures anim.Some? && player.Some? ==>
      match Cell(t, anim.value, player.value)
      case Some(n) => r == Point(n)
      case None => r == KeyError(if anim.value in t.entries then player.value else anim.value)
  {
    match (anim, player)
    case (None, None) => SubsequenceRefl(t.keys); Anims(t.keys)
    case (None, Some(p)) => Anims(AnimsWith(t, t.keys, p))
    case (Some(a), None) =>
      if a in t.entries then Points(Dicts.Values(t.entries[a])) else KeyError(a)
    case (Some(a), Some(p)) =>
      if a !in t.entries then KeyError(a)
      else if p !in t.entries[a].entries then KeyError(p)
      else Point(t.entries[a].entries[p])
  }

  /** `[str(i) for i in range(from, from + count)]`. */
  function Numbers(from: nat, count: nat): (s: seq<string>)
    ensures |s| == count && forall i :: 0 <= i < count ==> s[i] == Ints.NatStr(from + i)
  {
    seq(count, i requires 0 <= i < count => Ints.NatStr(from + i))
  }

  lemma NumbersDistinct(from: nat, count: nat)
    ensures Dicts.Distinct(Numbers(from, count))
  {
    var s := Numbers(from, count);
    forall i, j | 0 <= i < j < |s| ensures s[i] != s[j] {
      Ints.NatStrInjective(from + i, from + j);
    }
  }

  /** `{str(a): 0 for a in range(10, 20)}`. */
  function DummyRow(): (row: Row)
    ensures Dicts.Valid(row)
  {
    NumbersDistinct(10, 10);
    Dicts.Uniform(Numbers(10, 10), 0)
  }

  /** `{str(p): DummyRow() for p in range(10)}`: these outer keys are the animations. */
  function DummyTable(): (t: Table)
    ensures WellFormed(t)
  {
    NumbersDistinct(0, 10);
    Dicts.Uniform(Numbers(0, 10), DummyRow())
  }

  /** `Storage` holds the table in its `storage` attribute and updates it in place. */
  class Storage {
    var table: Table

    ghost predicate Valid()
      reads this
    {
      WellFormed(table)
    }

    /** `Storage.dummy()`: ten animations "0".."9", each with players "10".."19" on 0 points. */
    constructor Dummy()
      ensures Valid() && table == DummyTable()
    {
      table := DummyTable();
    }

    /** `write(anim, player, points)`: `self.storage[anim][player] = points`, `KeyError` swallowed. */
    method Write(anim: string, player: string, points: int)
      modifies this
      ensures table == Written(old(table), anim, player, points)
      ensures old(Valid()) ==> Valid()
    {
      if anim in table.entries {
        var row := table.entries[anim];
        table := Dicts.Put(table, anim, Dicts.Put(row, player, points));
      }
    }
  }

  /** The dummy table: animations str(0)..str(9) in order, every one with players str(10)..str(19) on 0 points. */
  lemma DummyContents()
    ensures Read(DummyTable(), None, None) == Anims(Numbers(0, 10))
    ensures forall a :: a in DummyTable().entries ==> DummyTable().entries[a].keys == Numbers(10, 10)
    ensures forall a, p :: 0 <= a < 10 && 10 <= p < 20 ==>
      Read(DummyTable(), Some(Ints.NatStr(a)), Some(Ints.NatStr(p))) == Point(0)
  {
    var t := DummyTable();
    forall a, p | 0 <= a < 10 && 10 <= p < 20
      ensures Read(t, Some(Ints.NatStr(a)), Some(Ints.NatStr(p))) == Point(0)
    {
      assert Ints.NatStr(a) == t.keys[a];
      assert Ints.NatStr(p) == DummyRow().keys[p - 10];
    }
  }

  /** After `write(a, p, n)` with `a` in the table, `read(a, p)` gives `n`, whether `p` was there or not. */
  lemma ReadAfterWrite(t: Table, anim: string, player: string, points: int)
    requires WellFormed(t) && anim in t.entries
    ensures Read(Written(t, anim, player, points), Some(anim), Some(player)) == Point(points)
  {
  }

  /**
   * A write changes no other cell's answer, no other animation's row (its
   * players, their order and their points), and never the list of animations.
   */
  lemma WriteFrame(t: Table, anim: string, player: string, points: int, a: string, p: string)
    requires WellFormed(t) && (a != anim || p != player)
    ensures Read(Written(t, anim, player, points), Some(a), Some(p)) == Read(t, Some(a), Some(p))
    ensures a != anim ==> Read(Written(t, anim, player, points), Some(a), None) == Read(t, Some(a), None)
    ensures Read(Written(t, anim, player, points), None, None) == Read(t, None, None)
  {
  }

  /** A write to an unknown animation is swallowed: every query answers as before. */
  lemma WriteUnknownAnim(t: Table, anim: string, player: string, points: int, a: Option<string>, p: Option<string>)
    requires WellFormed(t) && anim !in t.entries
    ensures Read(Written(t, anim, player, points), a, p) == Read(t, a, p)
  {
  }
}
