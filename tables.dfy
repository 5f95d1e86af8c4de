/**
 * The shape shared by the goals and penalties tables: a row per play, the rows of a period
 * one after the other, and the periods from the first to the current one in order.
 */
module Tables {
  import opened Strings
  import opened Api

  /** The rows of `plays`, in order. */
  function Rows(plays: seq<Play>, row: Play -> string): string
    decreases |plays|
  {
    if |plays| == 0 then "" else Rows(plays[..|plays| - 1], row) + row(plays[|plays| - 1])
  }

  /** The rows of periods 1 to `n`, given the rows of each period. */
  function RowsUpTo(rowsOf: int -> string, n: int): string
    decreases n
  {
    if n < 1 then "" else RowsUpTo(rowsOf, n - 1) + rowsOf(n)
  }

  /** Whether `has` holds for some period from 1 to `n`, computed period by period as the formatters' flags are. */
  function AnyUpTo(has: int -> bool, n: int): bool
    decreases n
  {
    n >= 1 && (has(n) || AnyUpTo(has, n - 1))
  }

  /** The flag is set exactly when some period from 1 to `n` has the property. */
  lemma {:induction false} AnyUpToIff(has: int -> bool, n: int)
    ensures AnyUpTo(has, n) <==> exists p :: 1 <= p <= n && has(p)
    decreases n
  {
    if n >= 1 {
      AnyUpToIff(has, n - 1);
      if has(n) {
        assert 1 <= n <= n && has(n);
      }
      if exists p :: 1 <= p <= n && has(p) {
        var p :| 1 <= p <= n && has(p);
        if p < n {
          assert 1 <= p <= n - 1 && has(p);
        }
      }
    }
  }

  /** When no period up to `n` has rows to give, there are no rows. */
  lemma {:induction false} NoneNoRows(rowsOf: int -> string, has: int -> bool, n: int)
    requires forall p :: !has(p) ==> rowsOf(p) == ""
    requires !AnyUpTo(has, n)
    ensures RowsUpTo(rowsOf, n) == ""
    decreases n
  {
    if n >= 1 {
      NoneNoRows(rowsOf, has, n - 1);
    }
  }

  /** Rows that each start with `c` (or are empty) make a text that starts with `c` (or is empty). */
  lemma {:induction false} RowsStartWith(plays: seq<Play>, row: Play -> string, c: char)
    requires forall x :: row(x) == "" || row(x)[0] == c
    ensures var r := Rows(plays, row); r == "" || r[0] == c
    decreases |plays|
  {
    if plays != [] {
      RowsStartWith(plays[..|plays| - 1], row, c);
    }
  }

  lemma {:induction false} RowsUpToStartWith(rowsOf: int -> string, c: char, n: int)
    requires forall p :: rowsOf(p) == "" || rowsOf(p)[0] == c
    ensures var r := RowsUpTo(rowsOf, n); r == "" || r[0] == c
    decreases n
  {
    if n >= 1 {
      RowsUpToStartWith(rowsOf, c, n - 1);
    }
  }

  /** The row of every play is a piece of the rows. */
  lemma {:induction false} RowWithinRows(plays: seq<Play>, row: Play -> string, k: nat)
    requires k < |plays|
    ensures Within(row(plays[k]), Rows(plays, row))
    decreases |plays|
  {
    var last := |plays| - 1;
    var init := Rows(plays[..last], row);
    if k == last {
      WithinSelf(row(plays[k]));
      WithinExtend(row(plays[k]), init, row(plays[k]), "");
    } else {
      assert plays[..last][k] == plays[k];
      RowWithinRows(plays[..last], row, k);
      WithinExtend(row(plays[k]), "", init, row(plays[last]));
    }
  }

  lemma RowOfMemberWithinRows(plays: seq<Play>, row: Play -> string, x: Play)
    requires x in plays
    ensures Within(row(x), Rows(plays, row))
  {
    var k :| 0 <= k < |plays| && plays[k] == x;
    RowWithinRows(plays, row, k);
  }

  /** A piece of period `p`'s rows is a piece of the rows of periods 1 to `n`, for `p <= n`. */
  lemma {:induction false} WithinRowsUpTo(piece: string, rowsOf: int -> string, n: int, p: int)
    requires 1 <= p <= n
    requires Within(piece, rowsOf(p))
    ensures Within(piece, RowsUpTo(rowsOf, n))
    decreases n
  {
    if p == n {
      WithinExtend(piece, RowsUpTo(rowsOf, n - 1), rowsOf(n), "");
    } else {
      WithinRowsUpTo(piece, rowsOf, n - 1, p);
      WithinExtend(piece, "", RowsUpTo(rowsOf, n - 1), rowsOf(n));
    }
  }

  /**
   * A table: the text before the rows, the rows of periods 1 to `n`, the placeholder row when
   * no period had anything to list, and a closing blank line.
   */
  function Table(pre: string, rowsOf: int -> string, has: int -> bool, n: int, placeholder: string): string
  {
    pre + RowsUpTo(rowsOf, n) + (if AnyUpTo(has, n) then "" else placeholder) + "\n"
  }

  /**
   * When a period without anything to list gives no rows and every row starts with a character
   * the placeholder does not start with, the table consists of the placeholder row alone exactly
   * when no period had anything to list.
   */
  lemma TablePlaceholderIff(pre: string, rowsOf: int -> string, has: int -> bool, n: int, placeholder: string, c: char)
    requires forall p :: !has(p) ==> rowsOf(p) == ""
    requires forall p :: rowsOf(p) == "" || rowsOf(p)[0] == c
    requires placeholder != "" && placeholder[0] != c
    ensures Table(pre, rowsOf, has, n, placeholder) == pre + placeholder + "\n" <==> !AnyUpTo(has, n)
  {
    var rows := RowsUpTo(rowsOf, n);
    if AnyUpTo(has, n) {
      RowsUpToStartWith(rowsOf, c, n);
      var body := pre + rows + "\n";
      var alone := pre + placeholder + "\n";
      assert Table(pre, rowsOf, has, n, placeholder) == body;
      assert alone[|pre|] == placeholder[0];
      if rows == "" {
        assert |body| < |alone|;
      } else {
        assert body[|pre|] == rows[0];
      }
    } else {
      NoneNoRows(rowsOf, has, n);
    }
  }

  /**
   * When a period without anything to list gives no rows, the table holds the placeholder row
   * alone when no period had anything to list, and otherwise the rows without a placeholder.
   */
  lemma TableShape(pre: string, rowsOf: int -> string, has: int -> bool, n: int, placeholder: string)
    requires forall p :: !has(p) ==> rowsOf(p) == ""
    ensures !AnyUpTo(has, n) ==> Table(pre, rowsOf, has, n, placeholder) == pre + placeholder + "\n"
    ensures AnyUpTo(has, n) ==> Table(pre, rowsOf, has, n, placeholder) == pre + RowsUpTo(rowsOf, n) + "\n"
  {
    if !AnyUpTo(has, n) {
      NoneNoRows(rowsOf, has, n);
    }
  }

  /** A piece of the rows of a period from 1 to `n` is a piece of the table. */
  lemma TableListsRow(piece: string, pre: string, rowsOf: int -> string, has: int -> bool, n: int, placeholder: string, p: int)
    requires 1 <= p <= n
    requires Within(piece, rowsOf(p))
    ensures Within(piece, Table(pre, rowsOf, has, n, placeholder))
  {
    WithinRowsUpTo(piece, rowsOf, n, p);
    var tail := (if AnyUpTo(has, n) then "" else placeholder) + "\n";
    WithinExtend(piece, pre, RowsUpTo(rowsOf, n), tail);
    assert Table(pre, rowsOf, has, n, placeholder) == pre + RowsUpTo(rowsOf, n) + tail;
  }

  /** The loop `for (const play of plays) out += row(play)`. */
  method AppendRows(prefix: string, plays: seq<Play>, row: Play -> string) returns (out: string)
    ensures out == prefix + Rows(plays, row)
  {
    out := prefix;
    for i := 0 to |plays|
      invariant out == prefix + Rows(plays[..i], row)
    {
      ghost var rows := Rows(plays[..i], row);
      var r := row(plays[i]);
      assert plays[..i + 1][..i] == plays[..i];
      assert Rows(plays[..i + 1], row) == rows + r;
      AppendAssoc(prefix, rows, r);
      out := out + r;
    }
    assert plays[..|plays|] == plays;
  }
}
