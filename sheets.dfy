/** The host application's sheet screens: the views that the sheet
    dispatchers of both pattern files hand back. */
module Sheets {

  /** One view per feature screen a sheet can present. */
  datatype SheetView =
    | AddItemView
    | SettingsView
    | OrphanedFeatureView
    | PriceWatchView
    | AIAssistantView
}
