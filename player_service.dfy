/**
 * The calls the screens make on the player service binder (`stopRadio`, `setupRadio`) and on
 * its player (`forcePlay`, `forcePlayAtIndex`, `forcePlayFromBeginning`, `enqueue`). Their
 * effect on the player is not modelled: a click is modelled by the calls it makes, in order.
 * Media items are identified by their media id.
 */
module PlayerService {
  import opened Wrappers
  import opened Innertube

  datatype PlayerCall =
    | StopRadio
    | ForcePlay(mediaId: string)
    | SetupRadio(endpoint: Option<Endpoint>)
    | SetupWatchRadio(videoId: string)
    | ForcePlayAtIndex(mediaIds: seq<string>, index: int)
    | ForcePlayFromBeginning(mediaIds: seq<string>)
    | Enqueue(mediaIds: seq<string>)

  /** `binder?.…`: with no bound service none of the calls happens. */
  function IfBound(bound: bool, calls: seq<PlayerCall>): (r: seq<PlayerCall>)
    ensures bound ==> r == calls
    ensures !bound ==> r == []
  {
    if bound then calls else []
  }
}
