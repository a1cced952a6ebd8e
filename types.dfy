/** Records shared by the store, the canvas and the two panels. */
module Types {

  /** Optional value, standing for a JavaScript value that may be undefined or null. */
  datatype Option<T> = None | Some(value: T)

  /** The result of an asynchronous call: the value it resolved to, or the message of the Error it threw. */
  datatype Outcome<T> = Ok(value: T) | Err(message: string)

  /** Postcard orientation. */
  datatype Orientation = Portrait | Landscape

  /** One photo of the collage: its id, its unedited and its displayed payload (data URIs), its label. */
  datatype ImageAsset = ImageAsset(
    id: string,
    originalData: string,
    currentData: string,
    name: string,
    isProcessing: bool)
}
