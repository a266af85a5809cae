/**
 * `build_menu`: lay a list of buttons out as keyboard rows of `n_cols`,
 * with an optional header row before them and an optional footer row after.
 */
module Menu {

  /** A `header_buttons` / `footer_buttons` argument: `None`, one button, or a list of buttons. */
  datatype Extra<T> = Absent | One(button: T) | Many(buttons: seq<T>)

  /** `if extra:` holds for a button object and for a non-empty list, not for `None` or `[]`. */
  predicate Given<T>(e: Extra<T>) {
    e.One? || (e.Many? && e.buttons != [])
  }

  /** `extra if isinstance(extra, list) else [extra]`. */
  function RowOf<T>(e: Extra<T>): (row: seq<T>)
    requires Given(e)
    ensures row != []
  {
    if e.One? then [e.button] else e.buttons
  }

  function Min(a: int, b: int): int {
    if a < b then a else b
  }

  /** `len(range(0, length, n))`: no steps at all when `n` is negative. */
  function RangeLen(length: nat, n: int): nat
    requires n != 0
  {
    if n < 0 then 0 else (length + n - 1) / n
  }

  /** The i-th start `i * n` of `range(0, length, n)` lies inside the list. */
  lemma StartInRange(length: nat, n: int, i: int)
    requires n > 0 && 0 <= i < RangeLen(length, n)
    ensures 0 <= i * n < length
  {
    var x := length + n - 1;
    var q, r := x / n, x % n;
    assert x == q * n + r && 0 <= r < n;
    MulMonotone(i, q - 1, n);
    assert (q - 1) * n == q * n - n;
    MulMonotone(0, i, n);
  }

  /** `[buttons[i:i + n] for i in range(0, len(buttons), n)]`. */
  function Chunks<T>(buttons: seq<T>, n: int): (rows: seq<seq<T>>)
    requires n != 0
    ensures n < 0 ==> rows == []
  {
    seq(RangeLen(|buttons|, n), i requires 0 <= i < RangeLen(|buttons|, n) =>
      StartInRange(|buttons|, n, i);
      buttons[i * n .. Min(i * n + n, |buttons|)])
  }

  /** The rows joined back together. */
  function Flatten<T>(rows: seq<seq<T>>): seq<T> {
    if rows == [] then [] else rows[0] + Flatten(rows[1..])
  }

  lemma {:induction false} FlattenAppend<T>(xs: seq<seq<T>>, ys: seq<seq<T>>)
    ensures Flatten(xs + ys) == Flatten(xs) + Flatten(ys)
  {
    if xs == [] {
      assert xs + ys == ys;
    } else {
      assert (xs + ys)[0] == xs[0];
      assert (xs + ys)[1..] == xs[1..] + ys;
      FlattenAppend(xs[1..], ys);
    }
  }

  lemma CountStep(length: nat, n: int)
    requires 0 < n < length
    ensures RangeLen(length, n) == RangeLen(length - n, n) + 1
  {
    var x := length - 1;
    var q, r := x / n, x % n;
    assert x == q * n + r && 0 <= r < n;
    assert x + n == (q + 1) * n + r;
    DivUnique(x + n, n, q + 1, r);
  }

  lemma DivUnique(x: int, n: int, q: int, r: int)
    requires n > 0 && x == q * n + r && 0 <= r < n
    ensures x / n == q
  {
    var q', r' := x / n, x % n;
    assert x == q' * n + r' && 0 <= r' < n;
    var d := q - q';
    assert d * n == r' - r by {
      assert q * n - q' * n == d * n;
    }
    if d >= 1 {
      MulAtLeast(d, n);
    } else if d <= -1 {
      MulAtLeast(-d, n);
    }
  }

  lemma MulMonotone(a: int, b: int, n: int)
    requires a <= b && n > 0
    ensures a * n <= b * n
  {
    assert b * n - a * n == (b - a) * n;
  }

  lemma MulAtLeast(k: int, n: int)
    requires k >= 1 && n > 0
    ensures k * n >= n
  {
    assert k * n == (k - 1) * n + n;
    assert (k - 1) * n >= 0;
  }

  /** Past the first row, chunking the rest of the list gives the remaining rows. */
  lemma ChunksSplit<T>(buttons: seq<T>, n: int)
    requires 0 < n < |buttons|
    ensures Chunks(buttons, n) == [buttons[..n]] + Chunks(buttons[n..], n)
  {
    var rows, rest := Chunks(buttons, n), Chunks(buttons[n..], n);
    CountStep(|buttons|, n);
    assert |rows| == 1 + |rest|;
    forall i | 0 <= i < |rest| ensures rows[i + 1] == rest[i] {
      StartInRange(|buttons| - n, n, i);
      assert (i + 1) * n == n + i * n;
      assert Min((i + 1) * n + n, |buttons|) == n + Min(i * n + n, |buttons| - n);
    }
    assert rows[0] == buttons[..n];
  }

  lemma CountOne(length: nat, n: int)
    requires 0 < length <= n
    ensures RangeLen(length, n) == 1
  {
    DivUnique(length + n - 1, n, 1, length - 1);
  }

  /** Joining the rows gives back the buttons, in order. */
  lemma {:induction false} ChunksFlatten<T>(buttons: seq<T>, n: int)
    requires n > 0
    ensures Flatten(Chunks(buttons, n)) == buttons
    decreases |buttons|
  {
    if |buttons| > n {
      ChunksSplit(buttons, n);
      ChunksFlatten(buttons[n..], n);
      assert buttons[..n] + buttons[n..] == buttons;
    } else if buttons != [] {
      CountOne(|buttons|, n);
      assert Chunks(buttons, n)[0] == buttons;
    }
  }

  /** Every row is non-empty and holds at most `n` buttons; every row but the last holds exactly `n`. */
  lemma ChunksRows<T>(buttons: seq<T>, n: int)
    requires n > 0
    ensures forall i :: 0 <= i < |Chunks(buttons, n)| ==> 0 < |Chunks(buttons, n)[i]| <= n
    ensures forall i :: 0 <= i < |Chunks(buttons, n)| - 1 ==> |Chunks(buttons, n)[i]| == n
  {
    var rows := Chunks(buttons, n);
    forall i | 0 <= i < |rows| ensures 0 < |rows[i]| <= n && (i < |rows| - 1 ==> |rows[i]| == n) {
      StartInRange(|buttons|, n, i);
      if i < |rows| - 1 {
        StartInRange(|buttons|, n, i + 1);
        assert (i + 1) * n == i * n + n;
      }
    }
  }

  /** The menu `build_menu(buttons, n_cols, header, footer)` returns. */
  function Menu<T>(buttons: seq<T>, nCols: int, header: Extra<T>, footer: Extra<T>): (menu: seq<seq<T>>)
    requires nCols != 0
    ensures var top := if Given(header) then 1 else 0;
      && |menu| == top + |Chunks(buttons, nCols)| + (if Given(footer) then 1 else 0)
      && (Given(header) ==> menu[0] == RowOf(header))
      && (Given(footer) ==> menu[|menu| - 1] == RowOf(footer))
      && menu[top .. top + |Chunks(buttons, nCols)|] == Chunks(buttons, nCols)
  {
    (if Given(header) then [RowOf(header)] else [])
    + Chunks(buttons, nCols)
    + (if Given(footer) then [RowOf(footer)] else [])
  }

  /** With a positive column count, the menu's buttons read back as header, buttons, footer. */
  lemma MenuFlatten<T>(buttons: seq<T>, nCols: int, header: Extra<T>, footer: Extra<T>)
    requires nCols > 0
    ensures Flatten(Menu(buttons, nCols, header, footer)) ==
      (if Given(header) then RowOf(header) else []) + buttons + (if Given(footer) then RowOf(footer) else [])
  {
    var top: seq<seq<T>> := if Given(header) then [RowOf(header)] else [];
    var bottom: seq<seq<T>> := if Given(footer) then [RowOf(footer)] else [];
    var chunks := Chunks(buttons, nCols);
    FlattenAppend(top + chunks, bottom);
    FlattenAppend(top, chunks);
    ChunksFlatten(buttons, nCols);
    assert Flatten(top) == if Given(header) then RowOf(header) else [] by {
      if Given(header) { assert top[1..] == []; }
    }
    assert Flatten(bottom) == if Given(footer) then RowOf(footer) else [] by {
      if Given(footer) { assert bottom[1..] == []; }
    }
  }

  /**
   * `build_menu`: the chunk rows first, then `menu.insert(0, header)` and
   * `menu.append(footer)` on the same list.
   */
  method BuildMenu<T>(buttons: seq<T>, nCols: int, header: Extra<T>, footer: Extra<T>) returns (menu: seq<seq<T>>)
    requires nCols != 0
    ensures menu == Menu(buttons, nCols, header, footer)
  {
    menu := Chunks(buttons, nCols);
    if Given(header) {
      menu := [RowOf(header)] + menu;
    }
    if Given(footer) {
      menu := menu + [RowOf(footer)];
    }
  }
}
