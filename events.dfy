/** The post-fetch notification. */
module Events {
  import opened Values

  /** The name under which `AfterFetchDataEvent` is dispatched. */
  const AfterFetchDataEventName: string := "ft.manager.after.fetch.data"

  /** The payload of the notification: the fetched data and the effective cache key. */
  datatype AfterFetchDataEvent = AfterFetchDataEvent(data: Value, cacheKey: Option<string>)

  /** Stands for an event dispatcher object; its listeners are outside the model. */
  datatype EventDispatcher = EventDispatcher(id: nat)
}
