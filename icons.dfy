/** The weather-condition glyph lookup (`tern`) and the colour chosen for the
    current-conditions glyph (`iconColor`), both inside the `WeatherData`
    component of src/App.js. */
module Icons {
  import opened Wrappers

  /** The FontAwesome glyphs the page imports. */
  datatype Glyph = Sun | Moon | Cloud | Rain | Snow | Wind | PartlyCloudyDay | PartlyCloudyNight

  /** Reference table of the lookup, written as a map from code to glyph. */
  const IconTable: map<string, Glyph> :=
    map["clear-day" := Sun, "clear-night" := Moon, "rain" := Rain,
        "snow" := Snow, "sleet" := Snow, "wind" := Wind,
        "cloudy" := Cloud, "fog" := Cloud,
        "partly-cloudy-day" := PartlyCloudyDay, "partly-cloudy-night" := PartlyCloudyNight]

  /** The ten weather-provider condition codes the lookup knows. */
  const IconCodes: set<string> := IconTable.Keys

  /** The chain of `if`s in `tern`; falling off the end yields `undefined`,
      modelled as `None`. */
  function Tern(icon: string): (g: Option<Glyph>)
  {
    if icon == "clear-day" then Some(Sun)
    else if icon == "clear-night" then Some(Moon)
    else if icon == "rain" then Some(Rain)
    else if icon == "snow" || icon == "sleet" then Some(Snow)
    else if icon == "wind" then Some(Wind)
    else if icon == "cloudy" || icon == "fog" then Some(Cloud)
    else if icon == "partly-cloudy-day" then Some(PartlyCloudyDay)
    else if icon == "partly-cloudy-night" then Some(PartlyCloudyNight)
    else None
  }

  /** The lookup is defined for exactly the ten known codes. */
  lemma TernDefinedExactly(icon: string)
    ensures Tern(icon).Some? <==> icon in IconCodes
  {
  }

  /** The lookup agrees with the reference table on every code, known or not. */
  lemma TernMatchesTable(icon: string)
    ensures Tern(icon) == (if icon in IconTable then Some(IconTable[icon]) else None)
  {
  }

  /** Snow and sleet share the snowflake; cloudy and fog share the cloud. */
  lemma TernSharedGlyphs()
    ensures Tern("snow") == Tern("sleet") == Some(Snow)
    ensures Tern("cloudy") == Tern("fog") == Some(Cloud)
  {
  }

  /** Only "clear-day" is drawn as the sun. */
  lemma TernSunOnlyForClearDay(icon: string)
    ensures Tern(icon) == Some(Sun) <==> icon == "clear-day"
  {
  }

  /** The colour of the current-conditions glyph: "white" unless the code is
      "clear-day", in which case the variable is overwritten with "yellow". */
  function IconColor(icon: string): (color: string)
    ensures color == "yellow" <==> icon == "clear-day"
    ensures color == "white" <==> icon != "clear-day"
  {
    if icon == "clear-day" then "yellow" else "white"
  }

  /** The glyph is yellow exactly when it is the sun. */
  lemma YellowExactlyForSun(icon: string)
    ensures IconColor(icon) == "yellow" <==> Tern(icon) == Some(Sun)
  {
  }
}
