/** Shared wrappers: an optional value and the outcome of an operation that may raise. */
module Common {

  datatype Option<T> = None | Some(value: T)

  /** The exceptions the modelled Python code can raise, by cause. */
  datatype Fault =
    | ShapeMismatch       // numpy ValueError: operand shapes do not agree
    | MissingActivation   // AttributeError: no elementwise activation was ever selected
    | EmptyReduction      // numpy ValueError: np.max of a zero-length vector (softmax)
    | MissingCache        // AttributeError: last_neuron_data read before any step
    | MissingIndex        // IndexError: data["Matrix"][0] on an empty matrix, layerslst[i-1] out of range
    | RaggedMatrix        // numpy ValueError: np.array of rows of unequal lengths
    | ZeroDivision        // ZeroDivisionError: a mean over an empty batch

  datatype Result<T> = Ok(value: T) | Err(fault: Fault)
}
