/** `upload_file`: reads the header and the id column of an uploaded table and
    fills in the controls of the form. */
module App {
  import opened Results
  import opened Builtins
  import PosixPath
  import Volcano

  /** The header names `upload_file` tests, in its order. */
  const Checked: seq<string> := ["id", "neg|lfc", "neg|p-value", "pos|lfc", "pos|p-value"]

  /** The controls `upload_file` returns values for: the upload button's label, the
      gene dropdown's choices and its selected value, and the x threshold. */
  datatype Controls = Controls(uploadLabel: string, geneChoices: seq<string>, geneValue: string,
                               thrX: real)

  /** The names of `names` that occur in `header`, in order. */
  function Present(names: seq<string>, header: seq<string>): (r: seq<string>)
    ensures forall n :: n in r <==> n in names && n in header
  {
    if names == [] then []
    else (if names[0] in header then [names[0]] else []) + Present(names[1..], header)
  }

  /** The columns whose "header does not exist" error object gets built. The test is
      `name in header`, so these are exactly the columns that DO exist; the objects
      are never raised, so nothing comes of them. */
  function ConstructedErrors(header: seq<string>): (r: seq<string>)
    ensures forall n :: n in r ==> n in header
    ensures forall k :: 0 <= k < |Checked| ==> (Checked[k] in r <==> Checked[k] in header)
  {
    Present(Checked, header)
  }

  /** `[sample[idx_id] for sample in data]`. */
  function IdColumn(rows: seq<seq<string>>, i: nat): (r: Result<seq<string>>)
    ensures r.Ok? <==> forall k :: 0 <= k < |rows| ==> i < |rows[k]|
    ensures r.Err? ==> r.error == IndexOutOfRange
    ensures r.Ok? ==> |r.value| == |rows| && forall k :: 0 <= k < |rows| ==> r.value[k] == rows[k][i]
  {
    if forall k :: 0 <= k < |rows| ==> i < |rows[k]| then
      Ok(seq(|rows|, k requires 0 <= k < |rows| => rows[k][i]))
    else Err(IndexOutOfRange)
  }

  /** `upload_file` on an already read table. The checks of the header change
      nothing; the real failure on a missing "id" column is `header.index('id')`,
      and a row too short to hold the id raises IndexError. The gene choices are the
      sentinel followed by the id column sorted, duplicates kept. */
  method UploadFile(filepath: string, header: seq<string>, rows: seq<seq<string>>)
    returns (r: Result<Controls>)
    ensures "id" !in header ==> r == Err(MissingColumn("id"))
    ensures "id" in header ==>
      var i := IndexOf(header, "id").value;
      && (r.Ok? <==> forall k :: 0 <= k < |rows| ==> i < |rows[k]|)
      && (r.Err? ==> r.error == IndexOutOfRange)
      && (r.Ok? ==>
            var c := r.value;
            && |c.geneChoices| == |rows| + 1
            && c.geneChoices[0] == Volcano.AllSignificant
            && Sorted(c.geneChoices[1..])
            && multiset(c.geneChoices[1..])
               == multiset(seq(|rows|, k requires 0 <= k < |rows| => rows[k][i]))
            && c.geneValue == Volcano.AllSignificant
            && c.thrX == 1.0
            && c.uploadLabel == "Uploaded " + PosixPath.Basename(filepath))
  {
    var fname := PosixPath.Basename(filepath);
    var unraised := ConstructedErrors(header);
    var idx := IndexOf(header, "id");
    if idx.None? {
      return Err(MissingColumn("id"));
    }
    var column :- IdColumn(rows, idx.value);
    var genes := Sort(column);
    genes := [Volcano.AllSignificant] + genes;
    assert genes[1..] == Sort(column);
    return Ok(Controls("Uploaded " + fname, genes, Volcano.AllSignificant, 1.0));
  }
}
