/**
 The header settings register: whether the header may be shown and the role of
 the signed-in employee. Any role string is accepted as it is.
 */
module ShowHeader {

  datatype Settings = Settings(showHeader: bool, role: string)

  /** The settings before any login: no header, role "Pending". */
  const DefaultSettings: Settings := Settings(false, "Pending")

  /**
   The register. `provided` is false for a component rendered outside any
   provider, which sees the context's default value, whose setter does nothing.
   */
  class ShowHeaderSettingsProvider {
    const provided: bool
    var settings: Settings

    constructor(provided: bool)
      ensures this.provided == provided
      ensures settings == DefaultSettings
    {
      this.provided := provided;
      settings := DefaultSettings;
    }

    /** What the register holds once `(showHeader, role)` are stored. */
    function After(showHeader: bool, role: string): Settings
      reads this
    {
      if provided then Settings(showHeader, role) else settings
    }

    /** `setSettingsHandler(showHeader, role)`: both fields are replaced together. */
    method SetSettingsHandler(showHeader: bool, role: string)
      modifies this`settings
      ensures provided ==> settings == Settings(showHeader, role)
      ensures !provided ==> settings == old(settings)
      ensures settings == old(After(showHeader, role))
    {
      if provided {
        settings := Settings(showHeader, role);
      }
    }
  }

  /** Fresh settings hide the header and hold the role "Pending". */
  method FreshSettingsAreDefault() returns (held: Settings)
    ensures !held.showHeader && held.role == "Pending"
  {
    var register := new ShowHeaderSettingsProvider(true);
    held := register.settings;
  }

  /** Last write wins: after two calls only the second pair is held, whatever role strings they carry. */
  method LastSettingsWin(show1: bool, role1: string, show2: bool, role2: string) returns (held: Settings)
    ensures held == Settings(show2, role2)
  {
    var register := new ShowHeaderSettingsProvider(true);
    register.SetSettingsHandler(show1, role1);
    register.SetSettingsHandler(show2, role2);
    held := register.settings;
  }

  /** Outside a provider the setter does nothing. */
  method DefaultSetterIgnoresSettings(showHeader: bool, role: string) returns (held: Settings)
    ensures held == DefaultSettings
  {
    var register := new ShowHeaderSettingsProvider(false);
    register.SetSettingsHandler(showHeader, role);
    held := register.settings;
  }
}
