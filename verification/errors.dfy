/** Failure values of the trainer and a failure-compatible Result/Option pair. */
module Errors {

  /** Every way a call into the trainer's core can abort. */
  datatype Error =
    | InvalidInitType      // sample_s_t_0: init_type is none of the four policies
    | UnknownNetType       // net_bank lookup of net_type fails
    | UnknownOptimizer     // optim_bank lookup of optimizer_type fails
    | ZeroModulo           // a schedule test computes (i + 1) % 0
    | EmptyBatch           // the per-sample gradient norm cannot reshape an empty batch

  datatype Option<+T> = None | Some(value: T)

  datatype Result<+T> = Ok(value: T) | Err(error: Error) {

    predicate IsFailure() {
      Err?
    }

    function PropagateFailure<U>(): Result<U>
      requires Err?
    {
      Err(error)
    }

    function Extract(): T
      requires Ok?
    {
      value
    }
  }
}
