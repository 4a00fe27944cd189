/** Failure-carrying values shared by every evaluator of the occultation core.
    The model returns an `Err` where the Python code raises, and where it
    hands a degenerate direction on to SPICE. */
module Results {

  datatype Option<+T> = None | Some(value: T)

  /** Why an evaluation produced no value. */
  datatype Error =
    /** A vector of length zero had to be normalised at this epoch
        (numpy would have produced NaN components there, and what SPICE
        makes of them is not modelled). */
    | DegenerateGeometry(epoch: real)
    /** The profiling loop never ran (duration <= 0), so the profile
        coordinates were never bound. */
    | NoSamples
    /** The profiling loop ran once: the profile coordinate is still a
        plain integer and cannot be transposed. */
    | SingleSample
    /** No altitude of the profile exceeds the ionospheric-peak threshold,
        so the first-crossing lookup indexes an empty array. */
    | NoQualifyingSample

  datatype Result<+T> = Ok(value: T) | Err(error: Error)
}
