/** `str.format` with keyword arguments, over a template already read into literal runs and fields. */
module Format {

  /** A format string read into its literal runs and its named replacement fields. */
  datatype Piece = Lit(text: string) | Slot(name: string)

  /** Every field of the template has an argument, so `format` raises no KeyError. */
  predicate Fillable(template: seq<Piece>, args: map<string, string>)
  {
    forall i :: 0 <= i < |template| && template[i].Slot? ==> template[i].name in args
  }

  function PieceText(p: Piece, args: map<string, string>): string
    requires p.Slot? ==> p.name in args
  {
    match p
    case Lit(t) => t
    case Slot(n) => args[n]
  }

  /** The text of the pieces from index `k` on. */
  function FillFrom(template: seq<Piece>, args: map<string, string>, k: nat): string
    requires k <= |template| && Fillable(template, args)
    decreases |template| - k
  {
    if k == |template| then "" else PieceText(template[k], args) + FillFrom(template, args, k + 1)
  }

  /** `template.format(**args)`: literal runs copied, each field replaced by its argument. */
  function Fill(template: seq<Piece>, args: map<string, string>): string
    requires Fillable(template, args)
  {
    FillFrom(template, args, 0)
  }

  /** The pieces of `b` placed after those of `a` give the same text as in `b` alone. */
  lemma {:induction false} FillFromShift(a: seq<Piece>, b: seq<Piece>, args: map<string, string>, j: nat)
    requires j <= |b| && Fillable(a + b, args) && Fillable(b, args)
    ensures FillFrom(a + b, args, |a| + j) == FillFrom(b, args, j)
    decreases |b| - j
  {
    if j < |b| {
      assert (a + b)[|a| + j] == b[j];
      FillFromShift(a, b, args, j + 1);
    }
  }

  lemma {:induction false} FillFromAppend(a: seq<Piece>, b: seq<Piece>, args: map<string, string>, k: nat)
    requires k <= |a| && Fillable(a + b, args) && Fillable(a, args) && Fillable(b, args)
    ensures FillFrom(a + b, args, k) == FillFrom(a, args, k) + FillFrom(b, args, 0)
    decreases |a| - k
  {
    if k == |a| {
      FillFromShift(a, b, args, 0);
    } else {
      assert (a + b)[k] == a[k];
      FillFromAppend(a, b, args, k + 1);
    }
  }

  /** Formatting works piece by piece: a split template formats to the two halves' texts. */
  lemma FillAppend(a: seq<Piece>, b: seq<Piece>, args: map<string, string>)
    requires Fillable(a + b, args)
    ensures Fillable(a, args) && Fillable(b, args)
    ensures Fill(a + b, args) == Fill(a, args) + Fill(b, args)
  {
    assert Fillable(a, args) by {
      forall i | 0 <= i < |a| && a[i].Slot? ensures a[i].name in args { assert (a + b)[i] == a[i]; }
    }
    assert Fillable(b, args) by {
      forall i | 0 <= i < |b| && b[i].Slot? ensures b[i].name in args { assert (a + b)[|a| + i] == b[i]; }
    }
    FillFromAppend(a, b, args, 0);
  }

  /** A seven-piece template formats to its pieces' texts in order. */
  lemma FillSeven(t: seq<Piece>, args: map<string, string>)
    requires |t| == 7 && Fillable(t, args)
    ensures Fill(t, args)
         == PieceText(t[0], args) + (PieceText(t[1], args) + (PieceText(t[2], args) + (PieceText(t[3], args)
            + (PieceText(t[4], args) + (PieceText(t[5], args) + PieceText(t[6], args))))))
  {
    assert FillFrom(t, args, 6) == PieceText(t[6], args) + "";
    assert FillFrom(t, args, 4) == PieceText(t[4], args) + FillFrom(t, args, 5);
    assert FillFrom(t, args, 2) == PieceText(t[2], args) + FillFrom(t, args, 3);
    assert FillFrom(t, args, 0) == PieceText(t[0], args) + FillFrom(t, args, 1);
  }
}
