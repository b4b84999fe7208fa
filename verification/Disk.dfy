/** The files the updater writes, as a map from path to content. */
module Disk {
  import opened Mirrors

  newtype byte = x: int | 0 <= x < 256

  type Bytes = seq<byte>

  /** What survives a restart: internal/update/manager.go, type memory. */
  datatype Memory = Memory(
    checkedAt: string, skipped: string, readyVersion: string, readyPath: string,
    preferredMirror: string, mirrorMeasured: string, learnedMirrors: seq<Mirror>)

  const NO_MEMORY := Memory("", "", "", "", "", "", [])

  /** A file holds the updater's memory, readable as such, or some bytes. */
  datatype File = Data(bytes: Bytes) | Memo(memory: Memory)

  type Files = map<string, File>

  /** filepath.Join of the download directory and one name. */
  function Join(directory: string, name: string): string { directory + "/" + name }

  lemma JoinInjective(directory: string, a: string, b: string)
    requires Join(directory, a) == Join(directory, b)
    ensures a == b
  {
    assert Join(directory, a)[|directory| + 1..] == a;
    assert Join(directory, b)[|directory| + 1..] == b;
  }

  /** The same files except that path is gone. */
  function Without(files: Files, path: string): Files { files - {path} }

  /** The two maps agree everywhere but on the given paths. */
  ghost predicate SameExcept(before: Files, after: Files, paths: set<string>) {
    forall p :: p !in paths ==> (p in before <==> p in after) && (p in before ==> before[p] == after[p])
  }
}
