/** Object-key minting of internal/storage/keys.go. */
module ObjectKeys {
  import opened GoTypes

  const SLASH: byte := 47
  const DOT: byte := 46

  // "uploads" and "outputs"
  const UPLOADS: GoString := [117, 112, 108, 111, 97, 100, 115]
  const OUTPUTS: GoString := [111, 117, 116, 112, 117, 116, 115]
  // "result.jpg"
  const RESULT_JPG: GoString := [114, 101, 115, 117, 108, 116, 46, 106, 112, 103]

  function GenerateOutputKey(job: Uuid, name: GoString): GoString {
    OUTPUTS + [SLASH] + job.text + [SLASH] + name
  }

  function ResultKey(job: Uuid): GoString { GenerateOutputKey(job, RESULT_JPG) }

  /** Where a job's result is stored, spelled out. The job's id is in it, so no two
      jobs share a result key. */
  lemma ResultKeyIsTheJobs(i: Uuid, j: Uuid)
    ensures Text(ResultKey(i)) == "outputs/" + Text(i.text) + "/result.jpg"
    ensures ResultKey(i) == ResultKey(j) <==> i == j
  {
    var n := |OUTPUTS| + 1;
    assert ResultKey(i)[n..|ResultKey(i)| - 11] == i.text;
    assert ResultKey(j)[n..|ResultKey(j)| - 11] == j.text;
  }
}
