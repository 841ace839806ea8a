/**
 * The PDF document as the sequence of layout operations issued on it.
 * Font metrics, page breaks and the byte encoding are not modelled; a
 * document is what was asked of it, in order.
 */
module Layout {

  /** The one font family both reports use. */
  const Font: string := "Helvetica"

  datatype Align = AlignLeft | AlignCenter

  datatype Op =
    | AddPageOp
    | SetFontOp(family: string, style: string, size: nat)
      /** `cell(w, h, text, border, ln, align)`: ln 0 stays on the line, ln 1 moves to the next. */
    | CellOp(w: nat, h: nat, text: string, border: bool, ln: nat, align: Align)
    | MultiCellOp(w: nat, h: nat, text: string)
    | LnOp(h: nat)

  /** The text an operation puts on the page. */
  function OpText(op: Op): string {
    match op
    case CellOp(_, _, text, _, _, _) => text
    case MultiCellOp(_, _, text) => text
    case _ => ""
  }

  /** All text the operations put on the page, in order. */
  function OpsText(ops: seq<Op>): string {
    if ops == [] then "" else OpsText(ops[..|ops| - 1]) + OpText(ops[|ops| - 1])
  }

  lemma {:induction false} OpsTextAppend(a: seq<Op>, b: seq<Op>)
    ensures OpsText(a + b) == OpsText(a) + OpsText(b)
    decreases |b|
  {
    if b == [] {
      assert a + b == a;
    } else {
      assert (a + b)[..|a + b| - 1] == a + b[..|b| - 1];
      OpsTextAppend(a, b[..|b| - 1]);
    }
  }

  /**
   * An FPDF document under construction. `overflow(n)` is whether the n-th
   * `multi_cell` call on this document (counting from 0) raises the layout
   * exception; it stands for the page state the model does not track.
   */
  class Pdf {
    var ops: seq<Op>
    var attempts: nat
    const overflow: nat -> bool

    constructor (overflow: nat -> bool)
      ensures ops == [] && attempts == 0 && this.overflow == overflow
    {
      ops := [];
      attempts := 0;
      this.overflow := overflow;
    }

    method AddPage()
      modifies this
      ensures ops == old(ops) + [AddPageOp] && attempts == old(attempts)
    {
      ops := ops + [AddPageOp];
    }

    method SetFont(family: string, style: string, size: nat)
      modifies this
      ensures ops == old(ops) + [SetFontOp(family, style, size)] && attempts == old(attempts)
    {
      ops := ops + [SetFontOp(family, style, size)];
    }

    method Cell(w: nat, h: nat, text: string, border: bool, ln: nat, align: Align)
      modifies this
      ensures ops == old(ops) + [CellOp(w, h, text, border, ln, align)] && attempts == old(attempts)
    {
      ops := ops + [CellOp(w, h, text, border, ln, align)];
    }

    method Ln(h: nat)
      modifies this
      ensures ops == old(ops) + [LnOp(h)] && attempts == old(attempts)
    {
      ops := ops + [LnOp(h)];
    }

    /**
     * `multi_cell(w, h, text)`. On overflow the call raises before anything is
     * laid out: `ok` is false and the document is unchanged.
     */
    method MultiCell(w: nat, h: nat, text: string) returns (ok: bool)
      modifies this
      ensures ok == !overflow(old(attempts))
      ensures attempts == old(attempts) + 1
      ensures ops == if ok then old(ops) + [MultiCellOp(w, h, text)] else old(ops)
    {
      ok := !overflow(attempts);
      if ok {
        ops := ops + [MultiCellOp(w, h, text)];
      }
      attempts := attempts + 1;
    }
  }
}
