module Base {
  /** What the server gives each object and instance, never twice. */
  type Uid = string

  datatype Option<+T> = None | Some(value: T) {
    function GetOr(default: T): T {
      if Some? then value else default
    }
  }

  datatype Result<+T> = Ok(value: T) | Err(message: string)
}
