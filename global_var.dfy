/** The single cached calendar token (src/utils/globalVar.js). */
module GlobalVar {

  class TokenCell {
    var value: string

    /** The cell starts as ''. */
    constructor ()
      ensures value == ""
    {
      value := "";
    }

    method SetVar(v: string)
      modifies this
      ensures value == v
    {
      value := v;
    }

    /** Reading the cell changes nothing (the method has no `modifies` clause). */
    method GetVar() returns (v: string)
      ensures v == value
    {
      v := value;
    }
  }

  /** `getVar()` after `setVar(a); setVar(b)` is `b`. */
  method LastSetWins(cell: TokenCell, a: string, b: string) returns (v: string)
    modifies cell
    ensures v == b
  {
    cell.SetVar(a);
    cell.SetVar(b);
    v := cell.GetVar();
  }
}
