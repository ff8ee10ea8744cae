/**
 * The visualisation backend (Rerun) as the chronicle logger sees it: a sink
 * that receives an ordered trace of calls. Only the shape of each call is
 * modelled; what the backend does with it is not.
 */
module Sink {

  /** A timeline coordinate: an integer sequence number or a timestamp in seconds. */
  datatype TimeValue = Sequence(step: int) | Timestamp(seconds: real)

  /** Pixel data handed through to the backend unchecked. */
  datatype ImageData = ImageData(shape: seq<nat>, samples: seq<int>)

  /** The archetypes the logger builds: `TextLog`, `Scalars`, `Image`, `TextDocument`. */
  datatype Record =
    | TextLog(text: string, level: string)
    | Scalars(value: real)
    | Image(image: ImageData)
    | TextDocument(content: string, mediaType: string)

  /** One call into the backend: `rr.init`, `rr.save`, `rr.log` or `rr.set_time`. */
  datatype Event =
    | Init(appId: string, spawn: bool)
    | Save(path: string)
    | Log(entityPath: string, record: Record)
    | SetTime(timeline: string, time: TimeValue)
}
