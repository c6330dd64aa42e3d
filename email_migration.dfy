/**
 * Data migration `fix_email`: every stored e-mail address whose text is not
 * already lower case is lower-cased and saved; the others are left alone.
 */
module EmailMigration {
  import opened Strings

  /** A row of the allauth e-mail table. */
  datatype EmailAddress = EmailAddress(id: nat, user: nat, email: string, verified: bool, primary: bool)

  /** The row after the migration has looked at it. */
  function Fixed(e: EmailAddress): (r: EmailAddress)
    ensures IsLowerCase(r.email)
    ensures r.(email := e.email) == e
    ensures IsLowerCase(e.email) ==> r == e
  {
    LowerIsLowerCase(e.email);
    e.(email := Lower(e.email))
  }

  /** The whole table after the migration. */
  function FixedAll(rows: seq<EmailAddress>): (r: seq<EmailAddress>)
    ensures |r| == |rows|
    ensures forall i :: 0 <= i < |rows| ==> r[i] == Fixed(rows[i])
  {
    seq(|rows|, i requires 0 <= i < |rows| => Fixed(rows[i]))
  }

  /** The positions among the first `n` rows that the migration saves, in order. */
  function Unfixed(rows: seq<EmailAddress>, n: nat): (r: seq<nat>)
    requires n <= |rows|
    ensures forall k :: 0 <= k < |r| ==> r[k] < n
    ensures forall i: nat :: i in r <==> i < n && !IsLowerCase(rows[i].email)
  {
    if n == 0 then []
    else Unfixed(rows, n - 1) + (if Fixed(rows[n - 1]) != rows[n - 1] then [n - 1] else [])
  }

  /** The saved positions go up strictly, so each row is saved at most once. */
  lemma {:induction false} UnfixedIncreasing(rows: seq<EmailAddress>, n: nat)
    requires n <= |rows|
    ensures forall j, k :: 0 <= j < k < |Unfixed(rows, n)| ==> Unfixed(rows, n)[j] < Unfixed(rows, n)[k]
  {
    if n > 0 {
      UnfixedIncreasing(rows, n - 1);
    }
  }

  /**
   * The state of `fix_email` after it has looked at the first `i` rows:
   * those are fixed, the rest untouched, and the rows saved so far recorded.
   */
  ghost predicate FixedUpTo(rows0: seq<EmailAddress>, rows: seq<EmailAddress>, saves0: seq<nat>, saves: seq<nat>, i: nat) {
    i <= |rows0| && |rows| == |rows0|
    && (forall j :: 0 <= j < i ==> rows[j] == Fixed(rows0[j]))
    && (forall j :: i <= j < |rows| ==> rows[j] == rows0[j])
    && saves == saves0 + Unfixed(rows0, i)
  }

  /** One turn of the loop that fixes row `i` and saves it. */
  lemma FixChanged(rows0: seq<EmailAddress>, rows: seq<EmailAddress>, saves0: seq<nat>, saves: seq<nat>, i: nat)
    requires FixedUpTo(rows0, rows, saves0, saves, i) && i < |rows0| && Fixed(rows[i]) != rows[i]
    ensures FixedUpTo(rows0, rows[i := Fixed(rows[i])], saves0, saves + [i], i + 1)
  {
    assert Unfixed(rows0, i + 1) == Unfixed(rows0, i) + [i];
  }

  /** One turn of the loop over a row that is already lower case. */
  lemma FixKept(rows0: seq<EmailAddress>, rows: seq<EmailAddress>, saves0: seq<nat>, saves: seq<nat>, i: nat)
    requires FixedUpTo(rows0, rows, saves0, saves, i) && i < |rows0| && Fixed(rows[i]) == rows[i]
    ensures FixedUpTo(rows0, rows, saves0, saves, i + 1)
  {
    assert Unfixed(rows0, i + 1) == Unfixed(rows0, i);
  }

  /** Once every row has been looked at, the table is the fixed table. */
  lemma FixDone(rows0: seq<EmailAddress>, rows: seq<EmailAddress>, saves0: seq<nat>, saves: seq<nat>)
    requires FixedUpTo(rows0, rows, saves0, saves, |rows0|)
    ensures rows == FixedAll(rows0)
    ensures saves == saves0 + Unfixed(rows0, |rows0|)
  {
  }

  class EmailTable {
    var rows: seq<EmailAddress>
    /** The positions passed to `save()`, in the order the saves happened. */
    var saves: seq<nat>

    constructor(rows0: seq<EmailAddress>)
      ensures rows == rows0 && saves == []
    {
      rows := rows0;
      saves := [];
    }

    /** `fix_email` */
    method FixEmails()
      modifies this
      ensures rows == FixedAll(old(rows))
      ensures saves == old(saves) + Unfixed(old(rows), |old(rows)|)
    {
      ghost var rows0, saves0 := rows, saves;
      var i := 0;
      while i < |rows|
        invariant |rows| == |rows0|
        invariant FixedUpTo(rows0, rows, saves0, saves, i)
      {
        var e := rows[i];
        var f := Fixed(e);
        if f != e {
          FixChanged(rows0, rows, saves0, saves, i);
          rows := rows[i := f];
          saves := saves + [i];
        } else {
          FixKept(rows0, rows, saves0, saves, i);
        }
        i := i + 1;
      }
      FixDone(rows0, rows, saves0, saves);
    }
  }

  /** Afterwards every address is lower case. */
  lemma AllLowerCase(rows: seq<EmailAddress>)
    ensures forall i :: 0 <= i < |rows| ==> IsLowerCase(FixedAll(rows)[i].email)
  {
  }

  /** Rows already in lower case are neither changed nor saved. */
  lemma LowerCaseRowsUntouched(rows: seq<EmailAddress>, i: nat)
    requires i < |rows| && IsLowerCase(rows[i].email)
    ensures FixedAll(rows)[i] == rows[i]
    ensures i !in Unfixed(rows, |rows|)
  {
  }

  /** A table already in lower case has nothing to save. */
  lemma {:induction false} NothingToSave(rows: seq<EmailAddress>, n: nat)
    requires n <= |rows|
    requires forall i :: 0 <= i < |rows| ==> IsLowerCase(rows[i].email)
    ensures Unfixed(rows, n) == []
  {
    if n > 0 {
      NothingToSave(rows, n - 1);
    }
  }

  /** A second run changes nothing and saves nothing. */
  lemma MigrationIdempotent(rows: seq<EmailAddress>)
    ensures FixedAll(FixedAll(rows)) == FixedAll(rows)
    ensures Unfixed(FixedAll(rows), |rows|) == []
  {
    NothingToSave(FixedAll(rows), |rows|);
  }

  /** Only the address is written: every other field of every row, and the row order, stay as they were. */
  lemma OnlyEmailWritten(rows: seq<EmailAddress>)
    ensures |FixedAll(rows)| == |rows|
    ensures forall i :: 0 <= i < |rows| ==> FixedAll(rows)[i].(email := rows[i].email) == rows[i]
  {
  }
}
