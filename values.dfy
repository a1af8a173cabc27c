/** Values shared by every part of the model: the JSON documents the run keeps
    on disk, the exceptions the Python code raises, and a Result type so that
    a raised exception can be propagated with `:-`. */
module Values {

  /** A JSON value as `json.load` produces it; integers and floats are kept apart,
      as Python keeps `int` and `float` apart. */
  datatype Json =
    | JNull
    | JBool(b: bool)
    | JInt(i: int)
    | JReal(r: real)
    | JStr(s: string)
    | JArr(items: seq<Json>)
    | JObj(fields: map<string, Json>)

  /** The exceptions the modelled code can raise. */
  datatype Error =
    | KeyError(key: string)        // a missing dictionary key
    | ValueError(key: string)      // RunData.set / RunData.get refusing a key
    | TypeError                    // arithmetic on a non-number, indexing a non-dict
    | IndexError                   // fewer engine potentials than restraints
    | FileNotFound                 // open() / shutil.copy() on a missing path
    | DecodeError                  // json.load() on a file that is not the expected document
    | EngineFailure                // the MD engine call itself failed

  datatype Option<+T> = None | Some(value: T)

  datatype Result<+T> = Ok(value: T) | Err(error: Error) {
    predicate IsFailure() { Err? }
    function PropagateFailure<U>(): Result<U>
      requires Err?
    {
      Err(error)
    }
    function Extract(): T
      requires Ok?
    {
      value
    }
  }

  /** A number as Python arithmetic sees it: an int or a float. */
  function AsReal(j: Json): (r: Result<real>)
    ensures r.Ok? <==> (j.JInt? || j.JReal?)
    ensures j.JInt? ==> r == Ok(j.i as real)
    ensures j.JReal? ==> r == Ok(j.r)
  {
    match j
    case JInt(i) => Ok(i as real)
    case JReal(x) => Ok(x)
    case _ => Err(TypeError)
  }

  /** An integer, as used in directory names. */
  function AsInt(j: Json): (r: Result<int>)
    ensures r.Ok? <==> j.JInt?
    ensures j.JInt? ==> r == Ok(j.i)
  {
    match j
    case JInt(i) => Ok(i)
    case _ => Err(TypeError)
  }

  /** `m[k]` on a Python dict. */
  function Lookup<V>(m: map<string, V>, k: string): (r: Result<V>)
    ensures r.Ok? <==> k in m
    ensures k in m ==> r.value == m[k]
    ensures k !in m ==> r == Err(KeyError(k))
  {
    if k in m then Ok(m[k]) else Err(KeyError(k))
  }
}
