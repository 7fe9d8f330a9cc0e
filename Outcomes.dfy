/** Small result types shared by the page models. */
module Outcomes {

  datatype Option<T> = None | Some(value: T)

  /** The settled outcome of a network call the client awaits: the response
      data, or a rejection (transport error, non-2xx status, thrown parse). */
  datatype Response<T> = Ok(data: T) | Failed
}
