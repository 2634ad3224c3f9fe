/** The signals the pages send to the main window. */
module Signals {

  datatype Signal =
    | LoginSuccess                       // login page: accepted credentials
    | RegisterRequested                  // login page: the register button
    | BackToLogin                        // register page: the back button
    | BackRequested                      // settings page: the back button
    | SettingsChanged                    // settings page: applied or imported
    | ThemeChanged(theme: string)        // settings page: theme item changed
    | LanguageChanged(language: string)  // settings page: language item changed
}
