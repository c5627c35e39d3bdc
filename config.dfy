/** The limits the dialogue enforces (config_data/config.py). */
module Config {

  /** Largest number of hotels a user may ask for. */
  const HOTEL_REQUESTS_LIMIT: nat := 15

  /** Largest number of photos per hotel a user may ask for. */
  const HOTEL_PHOTOS_LIMIT: nat := 10
}
