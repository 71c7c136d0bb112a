/** The responses the request handlers send: a status code and its JSON body. */
module Http {

  /** One entry of the validator's error list: the body field at fault and the rule's message. */
  datatype FieldError = FieldError(path: string, msg: string)

  datatype Response<+T> =
    | Ok(body: T)                                // 200 with a JSON body
    | Created(body: T)                           // 201 with the created document
    | ValidationFailed(errors: seq<FieldError>)  // 400 { errors: [...] }
    | BadRequest(message: string)                // 400 { message }
    | NotFound(message: string)                  // 404 { message }
    | ServerError(message: string)               // 500 { message }

  const ProductNotFound := "Product not found"
}
