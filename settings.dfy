/** Deployment settings (config.py). The provider credentials, the two phone
    numbers and the public base URL come from the environment at start-up; the
    model takes them as an explicit record handed to every handler. */
module Settings {

  /** The environment-sourced values that the call flow reads. The provider
      credentials are used only by the REST client, which is not modelled. */
  datatype Config = Config(
    fromNumber: string,       // PLIVO_FROM_NUMBER: caller id of outbound calls and bridges
    associateNumber: string,  // ASSOCIATE_NUMBER: the live associate's number
    baseUrl: string           // BASE_URL: public prefix of every webhook address
  )

  /** The recordings played by the "hear a message" option. config.py fixes both
      to the same file, so the two languages hear the same clip. */
  const AUDIO_URL_EN: string := "https://s3.amazonaws.com/plivocloud/Trumpet.mp3"
  const AUDIO_URL_ES: string := "https://s3.amazonaws.com/plivocloud/Trumpet.mp3"
}
