/** The records the weather service hands out: the `CurrentWeather`,
    `WeatherForecast` and `WeatherData` interfaces of lib/weatherService.ts.
    Every number the service produces is an integer constant plus a floored
    random draw, so the numeric fields are `int`. */
module WeatherTypes {

  datatype CurrentWeather = CurrentWeather(
    temp: int,
    condition: string,
    humidity: int,
    windSpeed: int,
    visibility: int,
    icon: string,
    feelsLike: int,
    uvIndex: int)

  datatype WeatherForecast = WeatherForecast(
    date: string,
    day: string,
    high: int,
    low: int,
    condition: string,
    icon: string,
    precipitation: int,
    windSpeed: int,
    humidity: int)

  datatype WeatherData = WeatherData(
    location: string,
    current: CurrentWeather,
    forecast: seq<WeatherForecast>,
    lastUpdated: string)

  /** The settled value of a promise: the value it resolved to, or the
      message of the `Error` it was rejected with. */
  datatype Result<T> = Success(value: T) | Failure(message: string)
}
