/** The one error boundary of an analysis run: every failure in the run ends
    it, and no partial result is produced. */
module Outcomes {

  /** The exceptions that can reach the boundary in the modelled part, and
      the one case where numpy yields no usable line and the model stops. */
  datatype Failure =
    | InvalidDate        // ValueError from datetime.date for the start date
    | MissingDateColumn  // KeyError 'Date': no stock selected, or only empty downloads,
                         // so the stock frame has no date index to reset
    | MissingFirstRow    // KeyError 0 in normalize: the merged table has no rows
    | DegenerateFit      // constant market return column: numpy yields no usable line and
                         // no least-squares line is unique, so the model stops

  datatype Result<T> = Ok(value: T) | Err(error: Failure)
}
