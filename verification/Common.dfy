/** Types shared by every component of the model. */
module Common {

  datatype Option<+T> = None | Some(value: T) {

    /** The value, or a default if there is none. */
    function GetOr(default: T): T {
      if Some? then value else default
    }
  }

  /** `notify_all`: every waiting thread has been notified. */
  function NotifyAll(waiting: map<nat, bool>): map<nat, bool> {
    map t | t in waiting :: true
  }

  /** The result of an operation that the library can refuse by throwing. */
  datatype Outcome = Done | Refused
}
