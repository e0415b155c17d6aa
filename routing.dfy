/**
 * The string tables of the controller: the monitor key and type string each
 * `Monitor*` method uses, and the three switches over them (the key-to-type
 * switch of `CreateMonitoringThread`, the type switch of the poll loop, and
 * the type-to-event switch of `TriggerUpdate`).
 */
module Routing {
  import opened ListingTypes

  /** The registry key each `Monitor*` method registers under. */
  function MonitorKey(k: ListKind): string {
    match k
    case Best => "BestPosts"
    case Hot => "HotPosts"
    case New => "NewPosts"
    case Rising => "RisingPosts"
    case Top => "TopPosts"
    case Controversial => "ControversialPosts"
    case ModQueue => "ModQueuePosts"
    case ModQueueReports => "ModQueueReportsPosts"
    case ModQueueSpam => "ModQueueSpamPosts"
    case ModQueueUnmoderated => "ModQueueUnmoderatedPosts"
    case ModQueueEdited => "ModQueueEditedPosts"
  }

  /** The type string each `Monitor*Thread` hands to the poll loop. */
  function MonitorType(k: ListKind): string {
    match k
    case Best => "best"
    case Hot => "hot"
    case New => "new"
    case Rising => "rising"
    case Top => "top"
    case Controversial => "controversial"
    case ModQueue => "modqueue"
    case ModQueueReports => "modqueuereports"
    case ModQueueSpam => "modqueuespam"
    case ModQueueUnmoderated => "modqueueunmoderated"
    case ModQueueEdited => "modqueueedited"
  }

  /**
   * The type of poll loop the thread built by `CreateMonitoringThread` runs;
   * any other key is refused with "Unrecognized key".
   */
  function CreateMonitoringThread(key: string): (r: Result<string>)
    ensures r.Err? ==> r.error == UnrecognizedKey
    ensures r.Ok? ==> PollKind(r.value).Some? && MonitorKey(PollKind(r.value).value) == key
  {
    match key
    case "BestPosts" => Ok("best")
    case "HotPosts" => Ok("hot")
    case "NewPosts" => Ok("new")
    case "RisingPosts" => Ok("rising")
    case "TopPosts" => Ok("top")
    case "ControversialPosts" => Ok("controversial")
    case "ModQueuePosts" => Ok("modqueue")
    case "ModQueueReportsPosts" => Ok("modqueuereports")
    case "ModQueueSpamPosts" => Ok("modqueuespam")
    case "ModQueueUnmoderatedPosts" => Ok("modqueueunmoderated")
    case "ModQueueEditedPosts" => Ok("modqueueedited")
    case _ => Err(UnrecognizedKey)
  }

  /**
   * The listing whose field the poll loop reads and whose `Get*` method it
   * calls for a type string; `None` is the "Unrecognized type" branch.
   */
  function PollKind(listingType: string): (r: Option<ListKind>)
    ensures r.Some? ==> MonitorType(r.value) == listingType
  {
    match listingType
    case "best" => Some(Best)
    case "hot" => Some(Hot)
    case "new" => Some(New)
    case "rising" => Some(Rising)
    case "top" => Some(Top)
    case "controversial" => Some(Controversial)
    case "modqueue" => Some(ModQueue)
    case "modqueuereports" => Some(ModQueueReports)
    case "modqueuespam" => Some(ModQueueSpam)
    case "modqueueunmoderated" => Some(ModQueueUnmoderated)
    case "modqueueedited" => Some(ModQueueEdited)
    case _ => None
  }

  /**
   * The event (`BestUpdated`, ..., `ModQueueEditedUpdated`) that
   * `TriggerUpdate` raises for a type string; `None` means it raises nothing.
   */
  function UpdateChannel(listingType: string): (r: Option<ListKind>)
    ensures r.Some? ==> MonitorType(r.value) == listingType
  {
    match listingType
    case "best" => Some(Best)
    case "hot" => Some(Hot)
    case "new" => Some(New)
    case "rising" => Some(Rising)
    case "top" => Some(Top)
    case "controversial" => Some(Controversial)
    case "modqueue" => Some(ModQueue)
    case "modqueuereports" => Some(ModQueueReports)
    case "modqueuespam" => Some(ModQueueSpam)
    case "modqueueunmoderated" => Some(ModQueueUnmoderated)
    case "modqueueedited" => Some(ModQueueEdited)
    case _ => None
  }

  /** Every monitor key is known to `CreateMonitoringThread`, which starts the same type of loop as the `Monitor*` method. */
  lemma CreateMonitoringThreadKnowsEveryKey(k: ListKind)
    ensures CreateMonitoringThread(MonitorKey(k)) == Ok(MonitorType(k))
  {
    match k
    case Best =>
    case Hot =>
    case New =>
    case Rising =>
    case Top =>
    case Controversial =>
    case ModQueue =>
    case ModQueueReports =>
    case ModQueueSpam =>
    case ModQueueUnmoderated =>
    case ModQueueEdited =>
  }

  /** `CreateMonitoringThread` refuses a key exactly when no `Monitor*` method uses it. */
  lemma CreateMonitoringThreadRefusesOnlyUnknownKeys(key: string)
    ensures CreateMonitoringThread(key) == Err(UnrecognizedKey) <==> forall k :: MonitorKey(k) != key
  {
    if CreateMonitoringThread(key).Ok? {
      var k := PollKind(CreateMonitoringThread(key).value).value;
      assert MonitorKey(k) == key;
    } else {
      forall k ensures MonitorKey(k) != key {
        CreateMonitoringThreadKnowsEveryKey(k);
      }
    }
  }

  /**
   * Each monitored type is polled on its own listing and raises exactly its
   * own event: the poll switch and `TriggerUpdate` agree on every type.
   */
  lemma EveryTypeRoutesToItsOwnList(k: ListKind)
    ensures PollKind(MonitorType(k)) == Some(k)
    ensures UpdateChannel(MonitorType(k)) == Some(k)
  {
    match k
    case Best =>
    case Hot =>
    case New =>
    case Rising =>
    case Top =>
    case Controversial =>
    case ModQueue =>
    case ModQueueReports =>
    case ModQueueSpam =>
    case ModQueueUnmoderated =>
    case ModQueueEdited =>
  }

  /**
   * A type the poll loop refuses raises no event, and a type it accepts
   * raises the event of the listing it polled.
   */
  lemma PollAndTriggerAgree(listingType: string)
    ensures PollKind(listingType) == UpdateChannel(listingType)
  {
  }
}
