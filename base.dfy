/** Values shared by every page of the dossier: optional values and what an
  * input box hands to a change handler. */
module Base {

  datatype Option<T> = None | Some(value: T)
  {
    function GetOr(default: T): T
    {
      match this
      case None => default
      case Some(v) => v
    }
  }

  /** What a change handler receives from an input box: the raw text, and
    * what `parseFloat` makes of it (`None` when it yields NaN). */
  datatype Input = Input(text: string, number: Option<real>)

  /** `parseFloat(value) || 0`: NaN (and 0) become 0, any other number is kept. */
  function NumberOrZero(i: Input): real
  {
    i.number.GetOr(0.0)
  }
}
