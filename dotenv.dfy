/** The `.env` lookup both configuration modules run at import time
    (`backend/config.py` and `backend/config_gemini.py`): the first existing
    file among three candidates is loaded, and only when none exists does
    `load_dotenv()` fall back to its default search. Paths are lists of
    components; which files exist is an input. */
module DotEnv {

  type Path = seq<string>

  datatype EnvSource = EnvFile(path: Path) | DefaultLookup

  /** `Path.parent`: the root is its own parent. */
  function Parent(p: Path): Path {
    if p == [] then [] else p[..|p| - 1]
  }

  /** The candidates beside the package, in its parent and in its grandparent. */
  function Candidates(here: Path): (c: seq<Path>)
    ensures |c| == 3
    ensures c[0] == here + [".env"] && c[1] == Parent(here) + [".env"] && c[2] == Parent(Parent(here)) + [".env"]
  {
    [here + [".env"], Parent(here) + [".env"], Parent(Parent(here)) + [".env"]]
  }

  /** The `for ... else` loop with `break`: the first candidate that exists,
      or the default lookup when none does. */
  method ChooseEnvSource(candidates: seq<Path>, existing: set<Path>) returns (source: EnvSource)
    ensures source.DefaultLookup? <==> forall i :: 0 <= i < |candidates| ==> candidates[i] !in existing
    ensures source.EnvFile? ==>
      exists k :: 0 <= k < |candidates| && candidates[k] == source.path && candidates[k] in existing &&
        forall j :: 0 <= j < k ==> candidates[j] !in existing
  {
    var i := 0;
    while i < |candidates|
      invariant 0 <= i <= |candidates|
      invariant forall j :: 0 <= j < i ==> candidates[j] !in existing
    {
      if candidates[i] in existing {
        return EnvFile(candidates[i]);
      }
      i := i + 1;
    }
    return DefaultLookup;
  }
}
