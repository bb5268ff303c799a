/**
 * The browser's durable key-value store, restricted to the three keys the application uses.
 * Each key is a field; `None` is an absent key.
 */
module BrowserStorage {
  import opened Wrappers
  import opened MetricsRecord
  import opened Profiles

  /**
   * What the metrics key can hold: the serialization of a record written by the recorder,
   * or any other text (the empty string included).
   */
  datatype StoredMetrics = Document(record: MetricsState) | Text(text: string)

  class LocalStorage {
    /** "bitvoyager_session_id" */
    var sessionItem: Option<string>
    /** "bitvoyager_metrics" */
    var metricsItem: Option<StoredMetrics>
    /** "pythonLearningProfile", written through the learning module's save contract */
    var profileItem: Option<Profile>

    constructor (sessionItem: Option<string>, metricsItem: Option<StoredMetrics>, profileItem: Option<Profile>)
      ensures this.sessionItem == sessionItem && this.metricsItem == metricsItem
      ensures this.profileItem == profileItem
    {
      this.sessionItem := sessionItem;
      this.metricsItem := metricsItem;
      this.profileItem := profileItem;
    }

    /** The three `removeItem` calls of the study reset. */
    method RemoveStudyKeys()
      modifies this
      ensures sessionItem == None && metricsItem == None && profileItem == None
    {
      sessionItem, metricsItem, profileItem := None, None, None;
    }
  }
}
