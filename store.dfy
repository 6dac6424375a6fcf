/**
 * The application store (src/lib/store.ts): three fields, each changed only by
 * its own setter.
 */
module Store {
  class AppStore {
    var currentSection: string
    var isMobile: bool
    var acceptingRequests: bool

    constructor ()
      ensures currentSection == "hero" && !isMobile && !acceptingRequests
    {
      currentSection := "hero";
      isMobile := false;
      acceptingRequests := false;
    }

    /** `setCurrentSection`: only the section changes, and to the given value whatever it was. */
    method SetCurrentSection(section: string)
      modifies this`currentSection
      ensures currentSection == section
    {
      currentSection := section;
    }

    /** `setIsMobile` */
    method SetIsMobile(mobile: bool)
      modifies this`isMobile
      ensures isMobile == mobile
    {
      isMobile := mobile;
    }

    /** `setAcceptingRequests` */
    method SetAcceptingRequests(accepting: bool)
      modifies this`acceptingRequests
      ensures acceptingRequests == accepting
    {
      acceptingRequests := accepting;
    }
  }
}
