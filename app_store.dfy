/** The application's global, unpersisted UI settings. */
module AppStore {

  class Store {
    var sidebarCollapsed: bool
    var theme: string
    var language: string

    constructor ()
      ensures !sidebarCollapsed && theme == "light" && language == "zh-CN"
    {
      sidebarCollapsed := false;
      theme := "light";
      language := "zh-CN";
    }

    method SetSidebarCollapsed(collapsed: bool)
      modifies this
      ensures sidebarCollapsed == collapsed && theme == old(theme) && language == old(language)
    {
      sidebarCollapsed := collapsed;
    }

    method ToggleSidebar()
      modifies this
      ensures sidebarCollapsed == !old(sidebarCollapsed) && theme == old(theme) && language == old(language)
    {
      sidebarCollapsed := !sidebarCollapsed;
    }

    method SetTheme(newTheme: string)
      modifies this
      ensures theme == newTheme && sidebarCollapsed == old(sidebarCollapsed) && language == old(language)
    {
      theme := newTheme;
    }

    method SetLanguage(newLanguage: string)
      modifies this
      ensures language == newLanguage && sidebarCollapsed == old(sidebarCollapsed) && theme == old(theme)
    {
      language := newLanguage;
    }
  }

  /** Toggling the sidebar twice restores every setting. */
  method ToggleTwice(store: Store)
    modifies store
    ensures store.sidebarCollapsed == old(store.sidebarCollapsed)
    ensures store.theme == old(store.theme) && store.language == old(store.language)
  {
    store.ToggleSidebar();
    store.ToggleSidebar();
  }
}
