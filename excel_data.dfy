/**
 * The cell-address map the Excel exports fill into their templates (service/ExcelData.java),
 * and the signature rows ("작성부서" / "작성자") the exports put into it from the standard
 * information record.
 */
module ExcelCells {
  import opened Wrappers

  /** One `addData(address, value)` call; the value may be null. */
  datatype Put = Put(address: string, value: Option<string>)

  /** The map a fresh `ExcelData` holds after the given calls, in call order. */
  function Cells(puts: seq<Put>): map<string, Option<string>>
    decreases |puts|
  {
    if |puts| == 0 then map[]
    else
      var last := puts[|puts| - 1];
      Cells(puts[..|puts| - 1])[last.address := last.value]
  }

  /** Cell address to text, backed by a hash map. */
  class ExcelData {
    var cellData: map<string, Option<string>>

    constructor ()
      ensures cellData == map[]
    {
      cellData := map[];
    }

    /** `put`: a later value at the same address replaces the earlier one. */
    method AddData(cellAddress: string, value: Option<string>)
      modifies this
      ensures cellData == old(cellData)[cellAddress := value]
    {
      cellData := cellData[cellAddress := value];
    }

    /** `get`: null for an address never added (and for one added with a null value). */
    function GetData(cellAddress: string): (r: Option<string>)
      reads this
      ensures cellAddress !in cellData ==> r.None?
      ensures cellAddress in cellData ==> r == cellData[cellAddress]
    {
      if cellAddress in cellData then cellData[cellAddress] else None
    }

    /** `keySet`. */
    function GetDataSet(): (r: set<string>)
      reads this
      ensures forall a :: a in r <==> a in cellData
    {
      cellData.Keys
    }
  }

  /** Java string concatenation with a nullable operand: null is spelled "null". */
  function Concat(prefix: string, s: Option<string>): (r: string)
    ensures s.Some? ==> r == prefix + s.value
    ensures s.None? ==> r == prefix + "null"
  {
    prefix + (if s.Some? then s.value else "null")
  }

  /** A writing department and writer pair of the standard information record. */
  datatype Signature = Signature(department: Option<string>, writer: Option<string>)

  /** The signature pairs of `StandardInfo`, one per report. */
  datatype StandardInfo = StandardInfo(
    accy: Signature, caseAssy: Signature, dip: Signature, im: Signature, manual: Signature,
    packing: Signature, pcb: Signature, sm: Signature, processStock: Signature, loss: Signature)

  const DepartmentPrefix: string := "◆ 작성부서 : "

  // ---------------------------------------------------------------------------------------------
  // Properties

  /** The addresses of the map are exactly the addresses added. */
  lemma {:induction false} CellsKeys(puts: seq<Put>)
    ensures Cells(puts).Keys == set i | 0 <= i < |puts| :: puts[i].address
    decreases |puts|
  {
    if |puts| > 0 {
      var init := puts[..|puts| - 1];
      CellsKeys(init);
      forall a | a in Cells(puts).Keys ensures a in set i | 0 <= i < |puts| :: puts[i].address {
        if a != puts[|puts| - 1].address {
          var i :| 0 <= i < |init| && init[i].address == a;
          assert puts[i].address == a;
        }
      }
      forall a | a in set i | 0 <= i < |puts| :: puts[i].address ensures a in Cells(puts).Keys {
        var i :| 0 <= i < |puts| && puts[i].address == a;
        if i < |init| { assert init[i].address == a; }
      }
    }
  }

  /** The value at an address is the one of the last call with that address. */
  lemma {:induction false} CellsLastWins(puts: seq<Put>, i: nat)
    requires i < |puts|
    requires forall j :: i < j < |puts| ==> puts[j].address != puts[i].address
    ensures puts[i].address in Cells(puts)
    ensures Cells(puts)[puts[i].address] == puts[i].value
    decreases |puts|
  {
    if i < |puts| - 1 {
      var init := puts[..|puts| - 1];
      assert init[i] == puts[i];
      CellsLastWins(init, i);
    }
  }

  /** Two calls: the second wins where the addresses coincide. */
  lemma TwoPuts(puts: seq<Put>)
    requires |puts| == 2
    ensures Cells(puts) == map[][puts[0].address := puts[0].value][puts[1].address := puts[1].value]
  {
    assert puts[..1][..0] == [];
    assert puts[..2][..1] == puts[..1];
    assert puts[..2] == puts;
    assert Cells(puts[..1]) == map[puts[0].address := puts[0].value];
  }

  /** Adding after a sequence of calls is the map of the longer sequence; other addresses are kept. */
  lemma CellsSnoc(puts: seq<Put>, p: Put, a: string)
    ensures Cells(puts + [p]) == Cells(puts)[p.address := p.value]
    ensures a != p.address ==> (a in Cells(puts + [p]) <==> a in Cells(puts))
    ensures a != p.address && a in Cells(puts) ==> Cells(puts + [p])[a] == Cells(puts)[a]
  {
    assert (puts + [p])[..|puts|] == puts;
  }
}
