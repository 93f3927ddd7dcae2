/** The life of a stream handler. */
module Phases {

  /** `VehicleStreamHandler::State` after the constructor, which passes through CREATE before
      it returns; `Deleted` stands for a handler that ran `delete this`. */
  datatype Phase = Accepting | Reading | Finishing | Deleted
}
