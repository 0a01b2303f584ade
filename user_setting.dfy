/**
 * The answers of the shared user setting object (ydn.crm.ui.UserSetting) that
 * the widgets read, taken as one value at the moment a handler runs.
 */
module UserSettings {
  import opened Js

  datatype UserSetting = UserSetting(
    ready: bool,            // isReady()
    login: bool,            // isLogin()
    validLogin: bool,       // hasValidLogin()
    loginEmail: string,     // getLoginEmail()
    gmail: Option<string>   // getGmail()
  )
}
