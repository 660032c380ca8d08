/** The records the entity layer loads and saves. */
module Entities {
  import opened Wrappers

  /**
   * An application of a service. `state` is the symbol a loaded
   * application carries (nil only in an application built from attributes
   * that lack one); `version` is the advisory cache-coherence token.
   */
  datatype App = App(serviceId: string, id: string,
                     state: Option<string>,
                     planId: Option<string>,
                     planName: Option<string>,
                     redirectUrl: Option<string>,
                     userRequired: bool,
                     version: Option<string>)
  {
    predicate Active() {
      state == Some("active")
    }
  }

  /** An end user of a service; the username is its id. */
  datatype User = User(serviceId: string, username: string,
                       state: Option<string>,
                       planId: Option<string>,
                       planName: Option<string>)

  /** What the entity layer reads of a service. */
  datatype Service = Service(id: string,
                             userRegistrationRequired: bool,
                             defaultUserPlanId: Option<string>,
                             defaultUserPlanName: Option<string>)
}
